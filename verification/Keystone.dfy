/**
 Manual keystone correction: the ENTER key selects one of four corners in turn, the arrow
 keys move the selected corner inwards or outwards by two, and an arrow icon is hidden when
 the corner cannot go further out that way.
 */
module Keystone {

  datatype Corner = TopLeft | TopRight | BottomRight | BottomLeft

  datatype Key = Enter | Up | Down | Left | Right | Reset

  /** Distances of a corner from its own corner of the screen. */
  datatype Pos = Pos(x: int, y: int)

  datatype Corners = Corners(tl: Pos, tr: Pos, br: Pos, bl: Pos)

  datatype Page = Page(item: Corner, corners: Corners)

  const LIMIT_X: int := 350
  const LIMIT_Y: int := 150
  const STEP_ADD: int := 2
  const STEP_DEL: int := -2

  function At(c: Corners, k: Corner): Pos {
    match k
    case TopLeft => c.tl
    case TopRight => c.tr
    case BottomRight => c.br
    case BottomLeft => c.bl
  }

  function With(c: Corners, k: Corner, p: Pos): Corners {
    match k
    case TopLeft => c.(tl := p)
    case TopRight => c.(tr := p)
    case BottomRight => c.(br := p)
    case BottomLeft => c.(bl := p)
  }

  predicate IsArrow(key: Key) {
    key.Up? || key.Down? || key.Left? || key.Right?
  }

  predicate IsSideways(key: Key) {
    key.Left? || key.Right?
  }

  predicate AtTop(k: Corner) {
    k.TopLeft? || k.TopRight?
  }

  predicate AtLeft(k: Corner) {
    k.TopLeft? || k.BottomLeft?
  }

  /** Whether an arrow points away from the middle of the picture, seen from this corner. */
  predicate Outward(k: Corner, key: Key) {
    match key
    case Up => AtTop(k)
    case Down => !AtTop(k)
    case Left => AtLeft(k)
    case Right => !AtLeft(k)
    case Enter => false
    case Reset => false
  }

  function Coordinate(p: Pos, key: Key): int {
    if IsSideways(key) then p.x else p.y
  }

  function Limit(key: Key): int {
    if IsSideways(key) then LIMIT_X else LIMIT_Y
  }

  /** Where the code would put the coordinate. */
  function Target(p: Pos, k: Corner, key: Key): int {
    Coordinate(p, key) + if Outward(k, key) then STEP_DEL else STEP_ADD
  }

  /** A move that would leave the range does nothing. */
  function Move(p: Pos, k: Corner, key: Key): Pos {
    var to := Target(p, k, key);
    if to < 0 || to > Limit(key) then p else if IsSideways(key) then p.(x := to) else p.(y := to)
  }

  function NextCorner(k: Corner): Corner {
    match k
    case TopLeft => TopRight
    case TopRight => BottomRight
    case BottomRight => BottomLeft
    case BottomLeft => TopLeft
  }

  const ZERO: Corners := Corners(Pos(0, 0), Pos(0, 0), Pos(0, 0), Pos(0, 0))

  function Step(s: Page, key: Key): Page {
    match key
    case Enter => s.(item := NextCorner(s.item))
    case Reset => s.(corners := ZERO)
    case _ => s.(corners := With(s.corners, s.item, Move(At(s.corners, s.item), s.item, key)))
  }

  function Run(s: Page, keys: seq<Key>): Page
    decreases |keys|
  {
    if keys == [] then s else Run(Step(s, keys[0]), keys[1..])
  }

  /** On which side of the middle of the screen a corner lies: -1 for left and up, 1 for right and down. */
  function Side(k: Corner): Pos {
    match k
    case TopLeft => Pos(-1, -1)
    case TopRight => Pos(1, -1)
    case BottomRight => Pos(1, 1)
    case BottomLeft => Pos(-1, 1)
  }

  /** Where the picture's corner is shown on a screen that reaches `half` to every side of its middle. */
  function Place(k: Corner, p: Pos, half: Pos): Pos {
    Pos(Side(k).x * (half.x - p.x), Side(k).y * (half.y - p.y))
  }

  /** Which way an arrow key points on the screen. */
  function Direction(key: Key): Pos {
    match key
    case Left => Pos(-1, 0)
    case Right => Pos(1, 0)
    case Up => Pos(0, -1)
    case Down => Pos(0, 1)
    case Enter => Pos(0, 0)
    case Reset => Pos(0, 0)
  }

  /** Which arrows of the selected corner the page hides. */
  predicate Hidden(s: Page, key: Key) {
    Outward(s.item, key) && Coordinate(At(s.corners, s.item), key) == 0
  }

  // ---------------------------------------------------------------- properties

  predicate Good(p: Pos) {
    0 <= p.x <= LIMIT_X && 0 <= p.y <= LIMIT_Y && p.x % 2 == 0 && p.y % 2 == 0
  }

  predicate AllGood(c: Corners) {
    Good(c.tl) && Good(c.tr) && Good(c.br) && Good(c.bl)
  }

  /** A key moves nothing but the selected corner, and that one only along the arrow, by two or not at all. */
  lemma OneCoordinateMoves(s: Page, key: Key)
    requires IsArrow(key)
    ensures var t := Step(s, key);
            && t.item == s.item
            && (forall k | k != s.item :: At(t.corners, k) == At(s.corners, k))
            && (IsSideways(key) ==> At(t.corners, s.item).y == At(s.corners, s.item).y)
            && (!IsSideways(key) ==> At(t.corners, s.item).x == At(s.corners, s.item).x)
            && (Coordinate(At(t.corners, s.item), key) == Target(At(s.corners, s.item), s.item, key)
                <==> 0 <= Target(At(s.corners, s.item), s.item, key) <= Limit(key))
            && (Coordinate(At(t.corners, s.item), key) == Coordinate(At(s.corners, s.item), key)
                <==> !(0 <= Target(At(s.corners, s.item), s.item, key) <= Limit(key)))
  {
  }

  /** The corner moves on the screen the way the arrow points, by two, or not at all. */
  lemma ArrowPointsTheWay(s: Page, key: Key, half: Pos)
    requires IsArrow(key)
    ensures var t := Step(s, key);
            var from, to := Place(s.item, At(s.corners, s.item), half), Place(s.item, At(t.corners, s.item), half);
            to == from || to == Pos(from.x + 2 * Direction(key).x, from.y + 2 * Direction(key).y)
  {
    var p, q := At(s.corners, s.item), At(Step(s, key).corners, s.item);
    assert q.x - p.x == 0 || q.x - p.x == 2 || q.x - p.x == -2;
  }

  /** ENTER goes round the picture clockwise: each next corner is the last one turned by a right angle. So four
      presses come back, and every corner is selected on the way. */
  lemma EnterGoesRound(s: Page, k: Corner)
    ensures var t := Step(s, Enter);
            t.corners == s.corners && Side(t.item) == Pos(-Side(s.item).y, Side(s.item).x)
    ensures Run(s, [Enter, Enter, Enter, Enter]) == s
    ensures k == s.item || k == Run(s, [Enter]).item || k == Run(s, [Enter, Enter]).item
            || k == Run(s, [Enter, Enter, Enter]).item
  {
    assert [Enter, Enter, Enter, Enter][1..] == [Enter, Enter, Enter];
    assert [Enter, Enter, Enter][1..] == [Enter, Enter];
    assert [Enter, Enter][1..] == [Enter];
    assert [Enter][1..] == [];
  }

  lemma MoveKeeps(p: Pos, k: Corner, key: Key)
    requires Good(p) && IsArrow(key)
    ensures Good(Move(p, k, key))
  {
  }

  lemma StepKeeps(s: Page, key: Key)
    requires AllGood(s.corners)
    ensures AllGood(Step(s, key).corners)
  {
    if IsArrow(key) {
      MoveKeeps(At(s.corners, s.item), s.item, key);
    }
  }

  lemma {:induction false} RunKeeps(s: Page, keys: seq<Key>)
    requires AllGood(s.corners)
    ensures AllGood(Run(s, keys).corners)
    decreases |keys|
  {
    if keys != [] {
      StepKeeps(s, keys[0]);
      RunKeeps(Step(s, keys[0]), keys[1..]);
    }
  }

  /** Over any key sequence from all zeros every coordinate stays even and in range, and an arrow is hidden
      exactly when its key would take the coordinate below 0. */
  lemma IconsTellTheTruth(item: Corner, keys: seq<Key>, key: Key)
    requires IsArrow(key)
    ensures var s := Run(Page(item, ZERO), keys);
            && AllGood(s.corners)
            && (Hidden(s, key) <==> Target(At(s.corners, s.item), s.item, key) < 0)
            && (Hidden(s, key) ==> Step(s, key) == s)
  {
    RunKeeps(Page(item, ZERO), keys);
  }

  /** The parity is what makes it so: from stored values of any parity, an icon is wrong exactly for a coordinate
      of 1 and an outward arrow. */
  lemma IconWrongIff(s: Page, key: Key)
    requires IsArrow(key) && Coordinate(At(s.corners, s.item), key) >= 0
    ensures (Hidden(s, key) <==> Target(At(s.corners, s.item), s.item, key) < 0)
       <==> !(Outward(s.item, key) && Coordinate(At(s.corners, s.item), key) == 1)
  {
  }

  function Opposite(key: Key): Key {
    match key
    case Up => Down
    case Down => Up
    case Left => Right
    case Right => Left
    case Enter => Enter
    case Reset => Reset
  }

  /** Opposite keys undo each other wherever the first one moves anything. */
  lemma OppositeUndoes(s: Page, key: Key)
    requires IsArrow(key) && AllGood(s.corners)
    ensures var t := Step(s, key);
            t != s ==> Step(t, Opposite(key)) == s
  {
  }

  /** A reset, after any keys, puts every corner back, so that just the outward arrows are hidden, and keeps the
      selected corner. */
  lemma ResetPutsBack(s: Page, keys: seq<Key>, key: Key)
    requires IsArrow(key)
    ensures var before, t := Run(s, keys), Step(Run(s, keys), Reset);
            && t.item == before.item && (forall k :: At(t.corners, k) == Pos(0, 0))
            && (Hidden(t, key) <==> Outward(t.item, key))
  {
  }

  // ---------------------------------------------------------------- the page

  /** The stored parameters, the selected item, and the icons of the selected corner. */
  class KeystonePage {
    var corners: Corners
    var item: Corner
    var upHidden: bool
    var downHidden: bool
    var leftHidden: bool
    var rightHidden: bool

    ghost function View(): Page
      reads `item, `corners
    {
      Page(item, corners)
    }

    /** The icons show what they should for the selected corner. */
    ghost predicate IconsShown()
      reads this
    {
      && upHidden == Hidden(View(), Up) && downHidden == Hidden(View(), Down)
      && leftHidden == Hidden(View(), Left) && rightHidden == Hidden(View(), Right)
    }

    constructor (stored: Corners)
      ensures View() == Page(TopLeft, stored) && IconsShown()
    {
      corners, item := stored, TopLeft;
      new;
      DisplayIcons();
    }

    method DisplayIcons()
      modifies `upHidden, `downHidden, `leftHidden, `rightHidden
      ensures IconsShown()
    {
      upHidden, downHidden, leftHidden, rightHidden := false, false, false, false;
      match item
      case TopLeft =>
        leftHidden := corners.tl.x == 0;
        upHidden := corners.tl.y == 0;
      case TopRight =>
        rightHidden := corners.tr.x == 0;
        upHidden := corners.tr.y == 0;
      case BottomRight =>
        rightHidden := corners.br.x == 0;
        downHidden := corners.br.y == 0;
      case BottomLeft =>
        leftHidden := corners.bl.x == 0;
        downHidden := corners.bl.y == 0;
    }

    /** Adds `value` to one coordinate of the selected corner, unless that leaves the range. */
    method UpdatePos(sideways: bool, value: int)
      modifies `corners
      ensures var p, q := At(old(corners), item), At(corners, item);
              && corners == With(old(corners), item, q)
              && (sideways ==> q == if 0 <= p.x + value <= LIMIT_X then p.(x := p.x + value) else p)
              && (!sideways ==> q == if 0 <= p.y + value <= LIMIT_Y then p.(y := p.y + value) else p)
    {
      var p := At(corners, item);
      if sideways {
        if p.x + value < 0 || p.x + value > LIMIT_X {
          return;
        }
        corners := With(corners, item, p.(x := p.x + value));
      } else {
        if p.y + value < 0 || p.y + value > LIMIT_Y {
          return;
        }
        corners := With(corners, item, p.(y := p.y + value));
      }
    }

    method ItemEvent(key: Key)
      requires key != Reset
      modifies this
      ensures View() == Step(old(View()), key) && IconsShown()
    {
      match key {
        case Enter =>
          item := NextCorner(item);
        case Up =>
          UpdatePos(false, if item == TopLeft || item == TopRight then STEP_DEL else STEP_ADD);
        case Down =>
          UpdatePos(false, if item == TopLeft || item == TopRight then STEP_ADD else STEP_DEL);
        case Left =>
          UpdatePos(true, if item == TopLeft || item == BottomLeft then STEP_DEL else STEP_ADD);
        case Right =>
          UpdatePos(true, if item == TopLeft || item == BottomLeft then STEP_ADD else STEP_DEL);
      }
      DisplayIcons();
    }

    method ResetPos()
      modifies `corners
      ensures View() == Step(old(View()), Reset)
    {
      corners := Corners(Pos(0, 0), Pos(0, 0), Pos(0, 0), Pos(0, 0));
    }
  }
}
