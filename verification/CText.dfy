/**
 The C string and stdio functions the text formats rely on, over NUL-free text, with the
 facts about them that the formats need.
 */
module CText {
  import opened Common

  const SPACES: set<char> := {' ', '\t', '\n', '\r', 11 as char, 12 as char}

  /** The part before the first character in `stop`, or everything. */
  function TakeUntil(s: string, stop: set<char>): string {
    if s == "" || s[0] in stop then "" else [s[0]] + TakeUntil(s[1..], stop)
  }

  predicate Free(s: string, stop: set<char>) {
    forall c | c in s :: c !in stop
  }

  lemma {:induction false} TakeUntilStops(a: string, c: char, b: string, stop: set<char>)
    requires Free(a, stop) && c in stop
    ensures TakeUntil(a + [c] + b, stop) == a
  {
    if a == "" {
      assert (a + [c] + b)[0] == c;
    } else {
      assert (a + [c] + b)[1..] == a[1..] + [c] + b;
      TakeUntilStops(a[1..], c, b, stop);
    }
  }

  lemma {:induction false} TakeUntilAll(a: string, stop: set<char>)
    requires Free(a, stop)
    ensures TakeUntil(a, stop) == a
  {
    if a != "" {
      TakeUntilAll(a[1..], stop);
    }
  }

  /** Nothing after a stopping character matters. */
  lemma {:induction false} TakeUntilBefore(a: string, c: char, b: string, stop: set<char>)
    requires c in stop
    ensures TakeUntil(a + [c] + b, stop) == TakeUntil(a, stop)
  {
    if a == "" {
      assert (a + [c] + b)[0] == c;
    } else {
      assert (a + [c] + b)[1..] == a[1..] + [c] + b;
      TakeUntilBefore(a[1..], c, b, stop);
    }
  }

  lemma {:induction false} TakenIsFree(s: string, stop: set<char>)
    ensures TakeUntil(s, stop) <= s && Free(TakeUntil(s, stop), stop)
  {
    if s != "" && s[0] !in stop {
      TakenIsFree(s[1..], stop);
    }
  }

  /** What follows the first `c`, as strchr plus one. */
  function Past(s: string, c: char): string
    requires c in s
  {
    if s[0] == c then s[1..] else Past(s[1..], c)
  }

  lemma {:induction false} PastFirst(a: string, c: char, b: string)
    requires c !in a
    ensures c in a + [c] + b && Past(a + [c] + b, c) == b
  {
    assert (a + [c] + b)[|a|] == c;
    if a != "" {
      assert (a + [c] + b)[1..] == a[1..] + [c] + b;
      PastFirst(a[1..], c, b);
    }
  }

  /** Skips leading characters of a set. */
  function Skip(s: string, over: set<char>): string {
    if s != "" && s[0] in over then Skip(s[1..], over) else s
  }

  // ---------------------------------------------------------------- strstr

  /** strstr: whether `key` occurs in `s`. */
  predicate Has(s: string, key: string) {
    key <= s || (s != "" && Has(s[1..], key))
  }

  predicate OccursAt(s: string, key: string, i: int) {
    0 <= i <= |s| - |key| && s[i..i + |key|] == key
  }

  lemma {:induction false} Found(s: string, key: string) returns (i: int)
    requires Has(s, key)
    ensures OccursAt(s, key, i)
  {
    if key <= s {
      i := 0;
    } else {
      var j := Found(s[1..], key);
      i := j + 1;
      assert s[1..][j..j + |key|] == s[i..i + |key|];
    }
  }

  lemma {:induction false} Occurs(s: string, key: string, i: int)
    requires OccursAt(s, key, i)
    ensures Has(s, key)
    decreases i
  {
    if i > 0 {
      assert s[1..][i - 1..i - 1 + |key|] == s[i..i + |key|];
      Occurs(s[1..], key, i - 1);
    } else {
      assert s[..|key|] == key;
    }
  }

  lemma HasIff(s: string, key: string)
    ensures Has(s, key) <==> exists i :: OccursAt(s, key, i)
  {
    if Has(s, key) {
      var i := Found(s, key);
    } else {
      forall i ensures !OccursAt(s, key, i) {
        if OccursAt(s, key, i) {
          Occurs(s, key, i);
        }
      }
    }
  }

  lemma NotAcross(s: string, key: string, i: int, j: int)
    requires 0 <= j < |s| && s[j] !in key && i <= j < i + |key|
    ensures !OccursAt(s, key, i)
  {
    if 0 <= i <= |s| - |key| {
      assert s[i..i + |key|][j - i] == s[j];
      assert key[j - i] in key;
    }
  }

  lemma HasInside(a: string, s: string, b: string, key: string)
    requires Has(s, key)
    ensures Has(a + s + b, key)
  {
    var i := Found(s, key);
    assert (a + s + b)[|a| + i..|a| + i + |key|] == s[i..i + |key|];
    Occurs(a + s + b, key, |a| + i);
  }

  lemma OccursOnOneSide(a: string, c: char, b: string, key: string, i: int)
    requires c !in key && OccursAt(a + [c] + b, key, i)
    ensures OccursAt(a, key, i) || OccursAt(b, key, i - |a| - 1)
  {
    var s := a + [c] + b;
    if i <= |a| < i + |key| {
      NotAcross(s, key, i, |a|);
    } else if i <= |a| {
      assert s[i..i + |key|] == a[i..i + |key|];
    } else {
      assert s[i..i + |key|] == b[i - |a| - 1..i - |a| - 1 + |key|];
    }
  }

  /** A key cannot straddle a character it does not contain. */
  lemma HasSplits(a: string, c: char, b: string, key: string)
    requires c !in key
    ensures Has(a + [c] + b, key) <==> Has(a, key) || Has(b, key)
  {
    var s := a + [c] + b;
    assert s == "" + a + ([c] + b) && s == a + [c] + b + "";
    if Has(a, key) {
      HasInside("", a, [c] + b, key);
    } else if Has(b, key) {
      HasInside(a + [c], b, "", key);
    } else if Has(s, key) {
      var i := Found(s, key);
      OccursOnOneSide(a, c, b, key, i);
      if OccursAt(a, key, i) {
        Occurs(a, key, i);
      } else {
        Occurs(b, key, i - |a| - 1);
      }
    }
  }

  predicate EndsWith(s: string, t: string) {
    |t| <= |s| && s[|s| - |t|..] == t
  }

  /** In `name=value` with no other '=', a key `base=` occurs exactly when the name ends in `base`. */
  lemma HasAssignment(name: string, value: string, base: string)
    requires '=' !in name && '=' !in value && '=' !in base
    ensures Has(name + "=" + value, base + "=") <==> EndsWith(name, base)
  {
    var s, key := name + "=" + value, base + "=";
    HasIff(s, key);
    assert key[|base|] == '=';
    if i :| OccursAt(s, key, i) {
      assert s[i..i + |key|][|base|] == s[i + |base|] == '=';
      assert i + |base| == |name|;
      assert s[i..i + |key|][..|base|] == name[i..];
      assert key[..|base|] == base;
    }
    if EndsWith(name, base) {
      var i := |name| - |base|;
      assert s[i..i + |key|] == name[i..] + "=";
      assert OccursAt(s, key, i);
    }
  }

  lemma HasNeedsEquals(s: string, base: string)
    requires '=' !in s
    ensures !Has(s, base + "=")
  {
    var key := base + "=";
    HasIff(s, key);
    forall i ensures !OccursAt(s, key, i) {
      if 0 <= i <= |s| - |key| {
        assert s[i..i + |key|][|base|] == s[i + |base|] && key[|base|] == '=';
        assert s[i + |base|] in s;
      }
    }
  }

  // ---------------------------------------------------------------- fgets

  /** fgets with a buffer of `size`: one line with its newline, cut to what fits. */
  function Fgets(text: string, size: nat): string
    requires size > 1
  {
    if text == "" then ""
    else if text[0] == '\n' || size == 2 then [text[0]]
    else [text[0]] + Fgets(text[1..], size - 1)
  }

  lemma {:induction false} FgetsPrefix(text: string, size: nat)
    requires size > 1
    ensures Fgets(text, size) <= text && (text != "" ==> 0 < |Fgets(text, size)| < size)
  {
    if text != "" && text[0] != '\n' && size > 2 {
      FgetsPrefix(text[1..], size - 1);
    }
  }

  /** A line that fits is read whole. */
  lemma {:induction false} FgetsLine(body: string, rest: string, size: nat)
    requires '\n' !in body && |body| + 2 <= size
    ensures Fgets(body + "\n" + rest, size) == body + "\n"
  {
    if body == "" {
      assert (body + "\n" + rest)[0] == '\n';
    } else {
      assert (body + "\n" + rest)[0] == body[0];
      assert (body + "\n" + rest)[1..] == body[1..] + "\n" + rest;
      FgetsLine(body[1..], rest, size - 1);
    }
  }

  // ---------------------------------------------------------------- sscanf

  /** sscanf(s, " key%<cap>s"): blanks, the key, blanks, then a word cut to `cap`. */
  function ScanWord(s: string, key: string, cap: nat): Option<string> {
    var t := Skip(s, SPACES);
    if !(key <= t) then None
    else
      var word := TakeUntil(Skip(t[|key|..], SPACES), SPACES);
      if word == "" then None else Some(word[..Min(|word|, cap)])
  }

  lemma ScanWordReads(key: string, word: string, tail: string, cap: nat)
    requires key != "" && key[0] !in SPACES && Free(word, SPACES) && 0 < |word| <= cap
    requires tail != "" && tail[0] in SPACES
    ensures ScanWord("\t" + key + word + tail, key, cap) == Some(word)
  {
    var s := "\t" + key + word + tail;
    var t := key + word + tail;
    assert s[1..] == t && t[0] == key[0];
    assert Skip(t, SPACES) == t;
    assert Skip(s, SPACES) == t;
    assert key <= t;
    assert t[|key|..] == word + tail;
    assert word[0] in word;
    assert Skip(word + tail, SPACES) == word + tail;
    assert word + tail == word + [tail[0]] + tail[1..];
    TakeUntilStops(word, tail[0], tail[1..], SPACES);
    assert word[..|word|] == word;
  }

  /** A key with nothing but blanks behind it stores no word. */
  lemma NoWord(before: string, key: string, blanks: string, cap: nat)
    requires key != "" && key[0] !in SPACES && before == "\t" && forall c | c in blanks :: c in SPACES
    ensures ScanWord(before + key + blanks, key, cap) == None
  {
    var s := before + key + blanks;
    assert s[1..] == key + blanks && (key + blanks)[0] == key[0];
    assert Skip(s[1..], SPACES) == key + blanks;
    assert Skip(s, SPACES) == key + blanks;
    assert (key + blanks)[|key|..] == blanks;
    SkipAll(blanks, SPACES);
  }

  lemma {:induction false} SkipAll(s: string, stops: set<char>)
    requires forall c | c in s :: c in stops
    ensures Skip(s, stops) == ""
  {
    if s != "" {
      assert s[0] in s;
      SkipAll(s[1..], stops);
    }
  }

  lemma ScanWordFails(s: string, key: string, cap: nat)
    requires |s| > 1 && s[0] in SPACES && s[1] !in SPACES && !(key <= s[1..])
    ensures ScanWord(s, key, cap) == None
  {
    assert s[1..][0] == s[1];
    assert Skip(s[1..], SPACES) == s[1..];
  }

  // ---------------------------------------------------------------- ASCII case

  function Lower(c: char): char {
    if 'A' <= c <= 'Z' then (c as int + 32) as char else c
  }

  /** The 26 letters, and nothing else, have two cases. */
  lemma LowerPairs(c: char)
    ensures 'A' <= c <= 'Z' ==> SameIgnoringCase([c], [(c as int + 32) as char])
    ensures !('A' <= c <= 'Z') ==> Lower(c) == c
  {
  }

  /** strcasecmp(a, b) == 0 in the C locale. */
  predicate SameIgnoringCase(a: string, b: string) {
    |a| == |b| && forall i | 0 <= i < |a| :: Lower(a[i]) == Lower(b[i])
  }
}
