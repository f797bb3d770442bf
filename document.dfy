/** The observable document: it owns the EmojiArt model, the published
    background image and the steady-state zoom and pan, and exposes the
    intents the view calls. */
module Document {
  import opened EmojiArtModel

  class EmojiArtDocument {
    /** The model, replaced as a whole value on every change. */
    var emojiArt: EmojiArt
    /** The decoded background, nil while none has been delivered. */
    var backgroundImage: Option<Image>
    var steadyStateZoomScale: real
    var steadyStatePanOffset: Size

    /** `init(id:)`: `stored` is what the key-value store held for this
        document, already decoded (None when it was missing or undecodable). */
    constructor (stored: Option<EmojiArt>)
      ensures emojiArt == (if stored.Some? then stored.value else EmptyArt)
      ensures backgroundImage == None
      ensures steadyStateZoomScale == 1.0 && steadyStatePanOffset == Zero
    {
      emojiArt := if stored.Some? then stored.value else EmptyArt;
      steadyStateZoomScale := 1.0;
      steadyStatePanOffset := Zero;
      backgroundImage := None;
      new;
      FetchBackgroundImageData();
    }

    /** `emojis`: the records in drawing order. */
    function Emojis(): (r: seq<Emoji>)
      reads this
      ensures r == emojiArt.emojis
    {
      emojiArt.emojis
    }

    /** The `backgroundURL` getter. */
    function BackgroundURL(): (u: Option<Url>)
      reads this
      ensures u == emojiArt.backgroundURL
    {
      emojiArt.backgroundURL
    }

    /** The `backgroundURL` setter. `imageURL` stands for the `URL.imageURL`
        normalisation, which is not part of this model. */
    method SetBackgroundURL(newValue: Option<Url>, imageURL: Url -> Url)
      modifies this`emojiArt, this`backgroundImage
      ensures emojiArt.emojis == old(emojiArt.emojis)
      ensures emojiArt.backgroundURL == (if newValue.Some? then Some(imageURL(newValue.value)) else None)
      ensures backgroundImage == None
    {
      emojiArt := emojiArt.(backgroundURL := if newValue.Some? then Some(imageURL(newValue.value)) else None);
      FetchBackgroundImageData();
    }

    /** The synchronous part of `fetchBackgroundImageData`: the displayed image
        is cleared whether or not there is a URL to fetch. Cancelling the
        previous request and starting a new one are not modelled. */
    method FetchBackgroundImageData()
      modifies this`backgroundImage
      ensures backgroundImage == None
    {
      backgroundImage := None;
    }

    /** The `assign(to: \.backgroundImage)` sink of a fetch: the decoded image,
        or nil when the request or the decoding failed. */
    method ReceiveBackgroundImage(image: Option<Image>)
      modifies this`backgroundImage
      ensures backgroundImage == image
    {
      backgroundImage := image;
    }

    /** `moveEmoji(_:by:)`: the first record with this id gets the truncated
        offset added to its position; with no such record nothing changes. */
    method MoveEmoji(id: int, offset: Size)
      modifies this`emojiArt
      ensures emojiArt.backgroundURL == old(emojiArt.backgroundURL)
      ensures emojiArt.emojis == UpdateFirst(old(emojiArt.emojis), id, Move(TruncToInt(offset.width), TruncToInt(offset.height)))
    {
      var index := FirstIndex(emojiArt.emojis, id);
      if index.Some? {
        var i := index.value;
        emojiArt := emojiArt.(emojis := emojiArt.emojis[i := emojiArt.emojis[i].(x := emojiArt.emojis[i].x + TruncToInt(offset.width))]);
        emojiArt := emojiArt.(emojis := emojiArt.emojis[i := emojiArt.emojis[i].(y := emojiArt.emojis[i].y + TruncToInt(offset.height))]);
      }
    }

    /** `scaleEmoji(_:by:)`: the first record with this id gets its size
        multiplied and rounded half to even; with no such record nothing changes. */
    method ScaleEmoji(id: int, scale: real)
      modifies this`emojiArt
      ensures emojiArt.backgroundURL == old(emojiArt.backgroundURL)
      ensures emojiArt.emojis == UpdateFirst(old(emojiArt.emojis), id, Scale(scale))
    {
      var index := FirstIndex(emojiArt.emojis, id);
      if index.Some? {
        var i := index.value;
        emojiArt := emojiArt.(emojis := emojiArt.emojis[i := emojiArt.emojis[i].(size := ScaledSize(emojiArt.emojis[i].size, scale))]);
      }
    }

    /** `removeEmoji(_:)`, forwarded to the model's removal of the first
        record with this id. */
    method RemoveEmoji(id: int)
      modifies this`emojiArt
      ensures emojiArt.backgroundURL == old(emojiArt.backgroundURL)
      ensures emojiArt.emojis == RemoveFirst(old(emojiArt.emojis), id)
    {
      emojiArt := emojiArt.(emojis := RemoveFirst(emojiArt.emojis, id));
    }
  }
}
