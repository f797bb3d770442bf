/** Values of the EmojiArt document model and the specification functions that
    the document's intents and the view's gesture handlers are proved against.

    CGFloat quantities are idealised as `real`; Swift's `Int` is unbounded here.
    The Emoji type, `firstIndex(matching:)` and `EmojiArt.removeEmoji` live in
    files that are not part of this model: an emoji is matched by its `id`. */
module EmojiArtModel {

  datatype Option<T> = None | Some(value: T)

  /** A URL: the core only stores it and tests it against nil. */
  datatype Url = Url(text: string)

  /** A CGSize, idealised to reals. */
  datatype Size = Size(width: real, height: real)

  const Zero: Size := Size(0.0, 0.0)

  /** A decoded background image: the core reads only its natural size. */
  datatype Image = Image(size: Size)

  /** One placed emoji: identity, its one-character text, a document-space
      position and a font size. */
  datatype Emoji = Emoji(id: int, text: string, x: int, y: int, size: int)

  /** The persisted model: the background URL and the emoji in drawing order. */
  datatype EmojiArt = EmojiArt(backgroundURL: Option<Url>, emojis: seq<Emoji>)

  const EmptyArt: EmojiArt := EmojiArt(None, [])

  /** No two records share an id (the intended, but not enforced, invariant). */
  ghost predicate UniqueIds(s: seq<Emoji>)
  {
    forall i, j :: 0 <= i < j < |s| ==> s[i].id != s[j].id
  }

  /** Two sequences of the same length whose records agree on their ids. */
  ghost predicate SameIds(s: seq<Emoji>, t: seq<Emoji>)
  {
    |s| == |t| && forall i :: 0 <= i < |s| ==> s[i].id == t[i].id
  }

  // ---------------------------------------------------------------------------
  // Locating a record

  /** `firstIndex(matching:)`: the first position whose record has this id. */
  function FirstIndex(s: seq<Emoji>, id: int): (r: Option<nat>)
    ensures r.None? <==> forall j :: 0 <= j < |s| ==> s[j].id != id
    ensures r.Some? ==> r.value < |s| && s[r.value].id == id
    ensures r.Some? ==> forall j :: 0 <= j < r.value ==> s[j].id != id
  {
    if s == [] then None
    else if s[0].id == id then Some(0)
    else match FirstIndex(s[1..], id)
      case None => None
      case Some(k) => Some(k + 1)
  }

  /** Whether `i` is the position `firstIndex(matching:)` finds for its own record. */
  predicate IsFirstOfId(s: seq<Emoji>, i: int)
    requires 0 <= i < |s|
  {
    FirstIndex(s, s[i].id) == Some(i)
  }

  /** Where ids agree position by position, the first match is the same. */
  lemma {:induction false} SameIdsFirstIndex(s: seq<Emoji>, t: seq<Emoji>, id: int)
    requires SameIds(s, t)
    ensures FirstIndex(s, id) == FirstIndex(t, id)
  {
    if s != [] && s[0].id != id {
      assert SameIds(s[1..], t[1..]) by {
        forall i | 0 <= i < |s[1..]| ensures s[1..][i].id == t[1..][i].id {
          assert s[1..][i] == s[i + 1] && t[1..][i] == t[i + 1];
        }
      }
      SameIdsFirstIndex(s[1..], t[1..], id);
    }
  }

  /** With unique ids every record is the first of its id. */
  lemma UniqueIdsFirst(s: seq<Emoji>, i: int)
    requires UniqueIds(s) && 0 <= i < |s|
    ensures IsFirstOfId(s, i)
  {
  }

  // ---------------------------------------------------------------------------
  // Swift's conversions from CGFloat

  /** `Int(CGFloat)`: conversion truncates toward zero. */
  function TruncToInt(r: real): (n: int)
    ensures 0.0 <= r ==> 0 <= n && n as real <= r < n as real + 1.0
    ensures r < 0.0 ==> n <= 0 && n as real - 1.0 < r <= n as real
  {
    if r >= 0.0 then r.Floor else -((-r).Floor)
  }

  /** Truncation toward zero is odd: opposite offsets truncate to opposite deltas. */
  lemma TruncNegate(r: real)
    ensures TruncToInt(-r) == -TruncToInt(r)
  {
  }

  /** `rounded(.toNearestOrEven)`: the nearest integer, ties to the even one. */
  function RoundHalfEven(r: real): (n: int)
    ensures -0.5 <= r - n as real <= 0.5
    ensures (r - n as real == 0.5 || r - n as real == -0.5) ==> n % 2 == 0
  {
    var f := r.Floor;
    var frac := r - f as real;
    if frac < 0.5 then f
    else if frac > 0.5 then f + 1
    else if f % 2 == 0 then f
    else f + 1
  }

  /** The two properties of RoundHalfEven determine it: any integer within one
      half of `r`, and even at a tie, is RoundHalfEven(r). */
  lemma RoundHalfEvenUnique(r: real, n: int)
    requires -0.5 <= r - n as real <= 0.5
    requires (r - n as real == 0.5 || r - n as real == -0.5) ==> n % 2 == 0
    ensures n == RoundHalfEven(r)
  {
    var m := RoundHalfEven(r);
    assert -1 <= n - m <= 1;
  }

  /** The new size `scaleEmoji` computes:
      `Int((CGFloat(size) * scale).rounded(.toNearestOrEven))`. */
  function ScaledSize(size: int, scale: real): (n: int)
    ensures -0.5 <= size as real * scale - n as real <= 0.5
  {
    RoundHalfEven(size as real * scale)
  }

  /** A magnification that ends at factor 1 leaves every size as it was. */
  lemma ScaleByOne(size: int)
    ensures ScaledSize(size, 1.0) == size
  {
    RoundHalfEvenUnique(size as real, size);
  }

  /** Nothing keeps a size positive: scaling down a small emoji yields size 0. */
  lemma ScaledSizeCanReachZero()
    ensures ScaledSize(1, 0.25) == 0
  {
    RoundHalfEvenUnique(0.25, 0);
  }

  /** Rounding after every gesture does not compose: two magnifications can
      end two units away from the single magnification by their product. */
  lemma ScalingDoesNotCompose()
    ensures ScaledSize(ScaledSize(1, 0.5), 4.0) == 0
    ensures ScaledSize(1, 0.5 * 4.0) == 2
  {
    RoundHalfEvenUnique(0.5, 0);
    RoundHalfEvenUnique(0.0, 0);
    RoundHalfEvenUnique(2.0, 2);
  }

  // ---------------------------------------------------------------------------
  // Updating one record

  /** The change an intent makes to a record: `moveEmoji` adds integer deltas
      to the position, `scaleEmoji` replaces the size. */
  datatype Edit = Move(dx: int, dy: int) | Scale(factor: real)

  function Apply(e: Emoji, edit: Edit): (r: Emoji)
    ensures r.id == e.id && r.text == e.text
  {
    match edit
    case Move(dx, dy) => e.(x := e.x + dx, y := e.y + dy)
    case Scale(f) => e.(size := ScaledSize(e.size, f))
  }

  /** The emoji array after an intent on `id`: the first record with that id
      is edited, everything else is kept, and an absent id changes nothing. */
  function UpdateFirst(s: seq<Emoji>, id: int, edit: Edit): (r: seq<Emoji>)
    ensures |r| == |s| && SameIds(s, r)
    ensures FirstIndex(s, id).None? ==> r == s
    ensures FirstIndex(s, id).Some? ==> r[FirstIndex(s, id).value] == Apply(s[FirstIndex(s, id).value], edit)
    ensures forall j :: 0 <= j < |s| && FirstIndex(s, id) != Some(j) ==> r[j] == s[j]
  {
    match FirstIndex(s, id)
    case None => s
    case Some(i) => s[i := Apply(s[i], edit)]
  }

  /** `moveEmoji` on a present id shifts exactly that record's x and y; its
      id, text and size, and every other record, are kept. */
  lemma MoveFirstChangesOnlyPosition(s: seq<Emoji>, id: int, dx: int, dy: int)
    requires FirstIndex(s, id).Some?
    ensures var i := FirstIndex(s, id).value;
      var r := UpdateFirst(s, id, Move(dx, dy));
      && |r| == |s|
      && r[i] == s[i].(x := s[i].x + dx, y := s[i].y + dy)
      && r[i].id == id && r[i].text == s[i].text && r[i].size == s[i].size
      && (forall j :: 0 <= j < |s| && j != i ==> r[j] == s[j])
  {
  }

  /** `scaleEmoji` on a present id changes exactly that record's size. */
  lemma ScaleFirstChangesOnlySize(s: seq<Emoji>, id: int, scale: real)
    requires FirstIndex(s, id).Some?
    ensures var i := FirstIndex(s, id).value;
      var r := UpdateFirst(s, id, Scale(scale));
      && |r| == |s|
      && r[i] == s[i].(size := ScaledSize(s[i].size, scale))
      && r[i].id == id && r[i].text == s[i].text && r[i].x == s[i].x && r[i].y == s[i].y
      && (forall j :: 0 <= j < |s| && j != i ==> r[j] == s[j])
  {
  }

  /** With duplicated ids only the first record with the id is updated. */
  lemma DuplicateAfterFirstUntouched(s: seq<Emoji>, i: int, j: int, edit: Edit)
    requires 0 <= i < j < |s| && s[i].id == s[j].id
    ensures UpdateFirst(s, s[j].id, edit)[j] == s[j]
  {
    var k := FirstIndex(s, s[j].id);
    assert k.value <= i;
  }

  /** Moving by (dx, dy) and then by (-dx, -dy) restores the array exactly. */
  lemma {:induction false} MoveRoundTrip(s: seq<Emoji>, id: int, dx: int, dy: int)
    ensures UpdateFirst(UpdateFirst(s, id, Move(dx, dy)), id, Move(-dx, -dy)) == s
  {
    var t := UpdateFirst(s, id, Move(dx, dy));
    SameIdsFirstIndex(s, t, id);
    var u := UpdateFirst(t, id, Move(-dx, -dy));
    assert |u| == |s|;
    forall j | 0 <= j < |s| ensures u[j] == s[j] {
    }
  }

  /** The round trip through `moveEmoji` with CGFloat offsets: truncation toward
      zero maps opposite offsets to opposite integer deltas. */
  lemma MoveOffsetRoundTrip(s: seq<Emoji>, id: int, offset: Size)
    ensures var there := Move(TruncToInt(offset.width), TruncToInt(offset.height));
      var back := Move(TruncToInt(-offset.width), TruncToInt(-offset.height));
      UpdateFirst(UpdateFirst(s, id, there), id, back) == s
  {
    TruncNegate(offset.width);
    TruncNegate(offset.height);
    MoveRoundTrip(s, id, TruncToInt(offset.width), TruncToInt(offset.height));
  }

  /** `EmojiArt.removeEmoji`: drop the first record with the id, if any. */
  function RemoveFirst(s: seq<Emoji>, id: int): (r: seq<Emoji>)
    ensures FirstIndex(s, id).None? ==> r == s
    ensures FirstIndex(s, id).Some? ==> |r| == |s| - 1
    ensures FirstIndex(s, id).Some? ==>
      var i := FirstIndex(s, id).value;
      (forall j :: 0 <= j < i ==> r[j] == s[j]) && (forall j :: i <= j < |r| ==> r[j] == s[j + 1])
  {
    match FirstIndex(s, id)
    case None => s
    case Some(i) => s[..i] + s[i + 1..]
  }
}
