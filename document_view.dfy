/** The view-state controller of the document view: the selection, the live
    gesture values, and the gesture handlers that turn a tap, a drag or a
    magnification into intents on the document. The selection holds emoji ids. */
module DocumentView {
  import opened EmojiArtModel
  import opened Document

  // ---------------------------------------------------------------------------
  // Specification functions for the selection-driven handlers

  /** The selection after a tap on the emoji with this id. */
  function Toggled(selection: set<int>, id: int): (r: set<int>)
    ensures id in r <==> id !in selection
    ensures forall other :: other != id ==> (other in r <==> other in selection)
  {
    if id in selection then selection - {id} else selection + {id}
  }

  /** Two taps on the same emoji restore the selection. */
  lemma ToggleTwice(selection: set<int>, id: int)
    ensures Toggled(Toggled(selection, id), id) == selection
  {
  }

  /** The emoji array with every record whose id is selected taken out,
      keeping the order of the others. */
  function Unselected(s: seq<Emoji>, selection: set<int>): (r: seq<Emoji>)
    ensures |r| <= |s|
    ensures forall e :: e in r ==> e in s && e.id !in selection
    ensures forall e :: e in s && e.id !in selection ==> e in r
    decreases |s|
  {
    if s == [] then []
    else
      var init, last := s[..|s| - 1], s[|s| - 1];
      assert s == init + [last];
      Unselected(init, selection) + (if last.id in selection then [] else [last])
  }

  /** Each unselected record keeps as many copies as the array had, and no
      selected record is left. */
  lemma {:induction false} UnselectedCount(s: seq<Emoji>, selection: set<int>, e: Emoji)
    ensures multiset(Unselected(s, selection))[e] == if e.id in selection then 0 else multiset(s)[e]
    decreases |s|
  {
    if s != [] {
      var init, last := s[..|s| - 1], s[|s| - 1];
      var tail := if last.id in selection then [] else [last];
      UnselectedCount(init, selection, e);
      UnselectedLast(s, selection);
      assert s == init + [last];
      assert multiset(s) == multiset(init) + multiset([last]);
      assert multiset(Unselected(s, selection)) == multiset(Unselected(init, selection)) + multiset(tail);
    }
  }

  /** Filtering distributes over concatenation, so the kept records stay in the
      order they had in the array. */
  lemma {:induction false} UnselectedAppend(s: seq<Emoji>, t: seq<Emoji>, selection: set<int>)
    ensures Unselected(s + t, selection) == Unselected(s, selection) + Unselected(t, selection)
    decreases |t|
  {
    if t == [] {
      assert s + t == s;
    } else {
      var st := s + t;
      var init, last := t[..|t| - 1], t[|t| - 1];
      var tail := if last.id in selection then [] else [last];
      assert st[..|st| - 1] == s + init && st[|st| - 1] == last;
      UnselectedAppend(s, init, selection);
      calc {
        Unselected(st, selection);
        { UnselectedLast(st, selection); }
        Unselected(st[..|st| - 1], selection) + tail;
        Unselected(s + init, selection) + tail;
        (Unselected(s, selection) + Unselected(init, selection)) + tail;
        Unselected(s, selection) + (Unselected(init, selection) + tail);
        Unselected(s, selection) + Unselected(t, selection);
      }
    }
  }

  /** The last record of a non-empty array is kept exactly when it is unselected. */
  lemma UnselectedLast(s: seq<Emoji>, selection: set<int>)
    requires s != []
    ensures Unselected(s, selection) ==
      Unselected(s[..|s| - 1], selection) + (if s[|s| - 1].id in selection then [] else [s[|s| - 1]])
  {
  }

  /** Filtering one more record of a prefix. */
  lemma UnselectedSnoc(s: seq<Emoji>, i: int, selection: set<int>)
    requires 0 <= i < |s|
    ensures Unselected(s[..i + 1], selection) ==
      Unselected(s[..i], selection) + (if s[i].id in selection then [] else [s[i]])
  {
    assert s[..i + 1][..i] == s[..i];
  }

  /** One step of the trash loop: once the records before `rest` have been
      filtered, the first record with `rest[0]`'s selected id is `rest[0]`. */
  lemma RemoveFirstAfterUnselected(done: seq<Emoji>, rest: seq<Emoji>, selection: set<int>)
    requires rest != [] && rest[0].id in selection
    ensures RemoveFirst(Unselected(done, selection) + rest, rest[0].id) == Unselected(done, selection) + rest[1..]
  {
    var kept := Unselected(done, selection);
    var t := kept + rest;
    forall j | 0 <= j < |kept| ensures t[j].id != rest[0].id {
      assert t[j] == kept[j] && kept[j] in kept;
    }
    assert t[|kept|].id == rest[0].id;
    assert FirstIndex(t, rest[0].id) == Some(|kept|);
    assert t[..|kept|] == kept && t[|kept| + 1..] == rest[1..];
  }

  /** One iteration of the trash loop over a snapshot `s` of the array:
      visiting `s[i]` extends the filtered prefix by one record. */
  lemma TrashStep(s: seq<Emoji>, i: int, selection: set<int>)
    requires 0 <= i < |s|
    ensures var current := Unselected(s[..i], selection) + s[i..];
      (if s[i].id in selection then RemoveFirst(current, s[i].id) else current)
      == Unselected(s[..i + 1], selection) + s[i + 1..]
  {
    var kept := Unselected(s[..i], selection);
    UnselectedSnoc(s, i, selection);
    assert s[i..][0] == s[i] && s[i..][1..] == s[i + 1..];
    if s[i].id in selection {
      RemoveFirstAfterUnselected(s[..i], s[i..], selection);
      assert kept + [] == kept;
    } else {
      MoveHeadToPrefix(kept, s[i..]);
    }
  }

  lemma MoveHeadToPrefix(kept: seq<Emoji>, rest: seq<Emoji>)
    requires rest != []
    ensures kept + rest == (kept + [rest[0]]) + rest[1..]
  {
    assert rest == [rest[0]] + rest[1..];
  }

  /** The emoji array after `edit` was sent once for every selected id: each
      record that is the first with a selected id is edited, all others kept. */
  function UpdateSelected(s: seq<Emoji>, selection: set<int>, edit: Edit): (r: seq<Emoji>)
    ensures |r| == |s| && SameIds(s, r)
    ensures forall i :: 0 <= i < |s| && s[i].id in selection && IsFirstOfId(s, i) ==> r[i] == Apply(s[i], edit)
    ensures forall i :: 0 <= i < |s| && !(s[i].id in selection && IsFirstOfId(s, i)) ==> r[i] == s[i]
  {
    seq(|s|, i requires 0 <= i < |s| => if s[i].id in selection && IsFirstOfId(s, i) then Apply(s[i], edit) else s[i])
  }

  /** One step of a fan-out loop: sending `edit` for a further id extends the
      set of ids handled. */
  lemma UpdateSelectedStep(s: seq<Emoji>, done: set<int>, id: int, edit: Edit)
    requires id !in done
    ensures UpdateFirst(UpdateSelected(s, done, edit), id, edit) == UpdateSelected(s, done + {id}, edit)
  {
    var t := UpdateSelected(s, done, edit);
    SameIdsFirstIndex(s, t, id);
    var u := UpdateFirst(t, id, edit);
    var w := UpdateSelected(s, done + {id}, edit);
    forall j | 0 <= j < |s| ensures u[j] == w[j] {
      SameIdsFirstIndex(s, t, s[j].id);
    }
  }

  /** With unique ids, a fan-out edits exactly the selected records. */
  lemma UpdateSelectedUnique(s: seq<Emoji>, selection: set<int>, edit: Edit)
    requires UniqueIds(s)
    ensures var r := UpdateSelected(s, selection, edit);
      forall i :: 0 <= i < |s| ==> r[i] == if s[i].id in selection then Apply(s[i], edit) else s[i]
  {
    forall i | 0 <= i < |s| {
      UniqueIdsFirst(s, i);
    }
  }

  /** A fan-out over an empty selection changes nothing. */
  lemma UpdateNoneSelected(s: seq<Emoji>, edit: Edit)
    ensures UpdateSelected(s, {}, edit) == s
  {
  }

  /** The next member a `for` loop over a Swift `Set` visits: which one is
      unspecified, so the handlers are proved for every choice. */
  method AnyMember<T>(s: set<T>) returns (x: T)
    requires s != {}
    ensures x in s
  {
    x :| x in s;
  }

  // ---------------------------------------------------------------------------
  // Fitting the background

  /** The guard of `zoomToFit`: an image is present and every image and
      viewport dimension is positive. */
  predicate CanFit(image: Option<Image>, viewport: Size): (ok: bool)
    ensures ok <==> image.Some? && image.value.size.width > 0.0 && image.value.size.height > 0.0
                    && viewport.width > 0.0 && viewport.height > 0.0
  {
    image.Some? && IsPositive(image.value.size) && IsPositive(viewport)
  }

  predicate IsPositive(size: Size)
  {
    size.width > 0.0 && size.height > 0.0
  }

  function Min(a: real, b: real): (m: real)
    ensures m <= a && m <= b && (m == a || m == b)
  {
    if a <= b then a else b
  }

  /** `min(hZoom, vZoom)`: the largest zoom at which the image fits the
      viewport; it fills the viewport along one axis. */
  function FitZoom(image: Size, viewport: Size): (z: real)
    requires image.width > 0.0 && image.height > 0.0 && viewport.width > 0.0 && viewport.height > 0.0
    ensures z > 0.0
    ensures z * image.width <= viewport.width && z * image.height <= viewport.height
    ensures z * image.width == viewport.width || z * image.height == viewport.height
  {
    var hZoom := viewport.width / image.width;
    var vZoom := viewport.height / image.height;
    assert hZoom * image.width == viewport.width;
    assert vZoom * image.height == viewport.height;
    if hZoom <= vZoom then
      assert hZoom * image.height <= vZoom * image.height;
      hZoom
    else
      assert vZoom * image.width <= hZoom * image.width;
      vZoom
  }

  // ---------------------------------------------------------------------------
  // The view

  class EmojiArtDocumentView {
    const document: EmojiArtDocument
    /** `selectedEmojis`, as the ids of the selected emoji. */
    var selectedEmojis: set<int>
    /** The live magnification of the selected emoji. */
    var gestureZoomScaleEmoji: real
    /** The live drag of the selected emoji, in document space. */
    var gestureEmojiPanOffset: Size
    /** The live magnification of the background. */
    var gestureZoomScale: real

    constructor (document: EmojiArtDocument)
      ensures this.document == document && selectedEmojis == {}
      ensures gestureZoomScaleEmoji == 1.0 && gestureEmojiPanOffset == Zero && gestureZoomScale == 1.0
    {
      this.document := document;
      selectedEmojis := {};
      gestureZoomScaleEmoji := 1.0;
      gestureEmojiPanOffset := Zero;
      gestureZoomScale := 1.0;
    }

    /** `zoomScale`: the steady zoom times the live background magnification. */
    function ZoomScale(): (z: real)
      reads this, document
      ensures gestureZoomScale == 1.0 ==> z == document.steadyStateZoomScale
      ensures z == document.steadyStateZoomScale * gestureZoomScale
    {
      document.steadyStateZoomScale * gestureZoomScale
    }

    /** `emojiZoomFactor(for:)`: the live magnification applies to selected
        emoji only. */
    function EmojiZoomFactor(emoji: Emoji): (f: real)
      reads this
      ensures emoji.id in selectedEmojis ==> f == gestureZoomScaleEmoji
      ensures emoji.id !in selectedEmojis ==> f == 1.0
    {
      if emoji.id in selectedEmojis then gestureZoomScaleEmoji else 1.0
    }

    /** `emojiPanOffset(for:)`: the live drag, scaled to the screen, applies to
        selected emoji only. */
    function EmojiPanOffset(emoji: Emoji): (o: Size)
      reads this, document
      ensures emoji.id in selectedEmojis ==>
        o == Size(gestureEmojiPanOffset.width * ZoomScale(), gestureEmojiPanOffset.height * ZoomScale())
      ensures emoji.id !in selectedEmojis ==> o == Zero
    {
      if emoji.id in selectedEmojis then
        Size(gestureEmojiPanOffset.width * ZoomScale(), gestureEmojiPanOffset.height * ZoomScale())
      else Zero
    }

    /** `isLoading`: a background URL is set and no image has arrived for it. */
    function IsLoading(): (b: bool)
      reads document
      ensures b <==> document.BackgroundURL().Some? && document.backgroundImage.None?
    {
      document.emojiArt.backgroundURL != None && document.backgroundImage == None
    }

    /** `selectGesture(for:)`: a tap toggles the emoji's membership. */
    method SelectTap(emoji: Emoji)
      modifies this`selectedEmojis
      ensures selectedEmojis == Toggled(old(selectedEmojis), emoji.id)
    {
      if emoji.id in selectedEmojis {
        selectedEmojis := selectedEmojis - {emoji.id};
      } else {
        selectedEmojis := selectedEmojis + {emoji.id};
      }
    }

    /** `backgroundSelectGesture()`: a tap on the background clears the
        selection, so no emoji follows a live gesture any more. */
    method BackgroundTap()
      modifies this`selectedEmojis
      ensures selectedEmojis == {}
      ensures forall e :: EmojiZoomFactor(e) == 1.0
      ensures forall e :: EmojiPanOffset(e) == Zero
    {
      selectedEmojis := {};
    }

    /** The trash button: every document emoji whose id is selected is
        removed; the selection itself is left as it was. */
    method Trash()
      modifies document`emojiArt
      ensures document.BackgroundURL() == old(document.BackgroundURL())
      ensures document.Emojis() == Unselected(old(document.Emojis()), selectedEmojis)
      ensures selectedEmojis == old(selectedEmojis)
    {
      var emojis := document.emojiArt.emojis;
      var i := 0;
      while i < |emojis|
        invariant 0 <= i <= |emojis|
        invariant document.emojiArt.backgroundURL == old(document.emojiArt.backgroundURL)
        invariant document.emojiArt.emojis == Unselected(emojis[..i], selectedEmojis) + emojis[i..]
      {
        TrashStep(emojis, i, selectedEmojis);
        if emojis[i].id in selectedEmojis {
          document.RemoveEmoji(emojis[i].id);
        }
        i := i + 1;
      }
      assert emojis[..i] == emojis;
    }

    /** The end of `emojiPanGesture()`: every selected emoji is moved by the
        same offset, here already converted to document space. */
    method EmojiPanEnded(offset: Size)
      modifies document`emojiArt
      ensures document.BackgroundURL() == old(document.BackgroundURL())
      ensures document.Emojis() ==
        UpdateSelected(old(document.Emojis()), selectedEmojis, Move(TruncToInt(offset.width), TruncToInt(offset.height)))
    {
      var edit := Move(TruncToInt(offset.width), TruncToInt(offset.height));
      var remaining := selectedEmojis;
      while remaining != {}
        invariant remaining <= selectedEmojis
        invariant document.emojiArt.backgroundURL == old(document.emojiArt.backgroundURL)
        invariant document.emojiArt.emojis == UpdateSelected(old(document.emojiArt.emojis), selectedEmojis - remaining, edit)
        decreases remaining
      {
        var id := AnyMember(remaining);
        UpdateSelectedStep(old(document.emojiArt.emojis), selectedEmojis - remaining, id, edit);
        document.MoveEmoji(id, offset);
        assert selectedEmojis - (remaining - {id}) == (selectedEmojis - remaining) + {id};
        remaining := remaining - {id};
      }
    }

    /** The live part of `zoomGesture()`: with nothing selected the background
        follows the magnification, otherwise the selected emoji do. */
    method ZoomChanged(latest: real)
      modifies this`gestureZoomScale, this`gestureZoomScaleEmoji
      ensures selectedEmojis == {} ==> gestureZoomScale == latest && gestureZoomScaleEmoji == old(gestureZoomScaleEmoji)
      ensures selectedEmojis != {} ==> gestureZoomScaleEmoji == latest && gestureZoomScale == old(gestureZoomScale)
      ensures forall e: Emoji :: e.id in selectedEmojis ==> EmojiZoomFactor(e) == latest
    {
      if selectedEmojis == {} {
        gestureZoomScale := latest;
      } else {
        gestureZoomScaleEmoji := latest;
      }
    }

    /** The end of `zoomGesture()`: with nothing selected the steady zoom is
        multiplied by the final scale and the emoji are untouched; otherwise
        every selected emoji is scaled and the steady zoom is untouched. */
    method ZoomEnded(finalScale: real)
      modifies document`emojiArt, document`steadyStateZoomScale
      ensures document.BackgroundURL() == old(document.BackgroundURL())
      ensures selectedEmojis == {} ==>
        document.steadyStateZoomScale == old(document.steadyStateZoomScale) * finalScale
        && document.Emojis() == old(document.Emojis())
      ensures selectedEmojis != {} ==>
        document.steadyStateZoomScale == old(document.steadyStateZoomScale)
        && document.Emojis() == UpdateSelected(old(document.Emojis()), selectedEmojis, Scale(finalScale))
    {
      if selectedEmojis == {} {
        document.steadyStateZoomScale := document.steadyStateZoomScale * finalScale;
      } else {
        var remaining := selectedEmojis;
        while remaining != {}
          invariant remaining <= selectedEmojis
          invariant document.steadyStateZoomScale == old(document.steadyStateZoomScale)
          invariant document.emojiArt.backgroundURL == old(document.emojiArt.backgroundURL)
          invariant document.emojiArt.emojis == UpdateSelected(old(document.emojiArt.emojis), selectedEmojis - remaining, Scale(finalScale))
          decreases remaining
        {
          var id := AnyMember(remaining);
          UpdateSelectedStep(old(document.emojiArt.emojis), selectedEmojis - remaining, id, Scale(finalScale));
          document.ScaleEmoji(id, finalScale);
          assert selectedEmojis - (remaining - {id}) == (selectedEmojis - remaining) + {id};
          remaining := remaining - {id};
        }
      }
    }

    /** `zoomToFit(_:in:)`: when the guard holds, the pan is reset and the zoom
        set to fit the image; otherwise nothing changes. */
    method ZoomToFit(image: Option<Image>, viewport: Size)
      modifies document`steadyStatePanOffset, document`steadyStateZoomScale
      ensures !CanFit(image, viewport) ==>
        document.steadyStatePanOffset == old(document.steadyStatePanOffset)
        && document.steadyStateZoomScale == old(document.steadyStateZoomScale)
      ensures CanFit(image, viewport) ==>
        document.steadyStatePanOffset == Zero
        && document.steadyStateZoomScale == FitZoom(image.value.size, viewport)
    {
      if image.Some? && image.value.size.width > 0.0 && image.value.size.height > 0.0
         && viewport.height > 0.0 && viewport.width > 0.0
      {
        var hZoom := viewport.width / image.value.size.width;
        var vZoom := viewport.height / image.value.size.height;
        document.steadyStatePanOffset := Zero;
        document.steadyStateZoomScale := Min(hZoom, vZoom);
      }
    }

    /** The OK action of the paste-background alert: the pasted URL becomes
        the background, so the view shows the loading state exactly when a
        URL was pasted. `imageURL` stands for the `URL.imageURL` normalisation. */
    method ConfirmBackgroundPaste(pasted: Option<Url>, imageURL: Url -> Url)
      modifies document`emojiArt, document`backgroundImage
      ensures document.Emojis() == old(document.Emojis())
      ensures document.BackgroundURL() == (if pasted.Some? then Some(imageURL(pasted.value)) else None)
      ensures document.backgroundImage == None
      ensures IsLoading() <==> pasted.Some?
    {
      document.SetBackgroundURL(pasted, imageURL);
    }
  }

  /** The fit of a 400 x 100 image into a 200 x 100 viewport is zoom 0.5. */
  lemma FitZoomExample()
    ensures FitZoom(Size(400.0, 100.0), Size(200.0, 100.0)) == 0.5
  {
  }
}
