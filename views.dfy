/** The derived photo views: `findImageChat` (the photo feed) and the body of
    `getPhotoDetailHandler`. Both are computed from the chat list on every read. */
module ChatViews {
  import opened Wrappers
  import opened ChatTypes
  import opened Seqs
  import opened ChatLookup

  /** The filter predicate: the message has at least one image or video. */
  predicate HasMedia(p: ChatPair)
  {
    |p.parentChatting.imageUrls| > 0 || |p.parentChatting.videoUrls| > 0
  }

  function Thumbnail(v: Video): Url { v.thumbnailUrl }

  /** The line of one message: its images, or else its video thumbnails with the
      first video's `time` (`[].map(...)[0]` is `undefined` when there is none). */
  function LineOf(p: ChatPair): PhotoLine
  {
    var c := p.parentChatting;
    if |c.imageUrls| > 0 then PhotoLine(c.id, c.imageUrls, "", None)
    else PhotoLine(c.id, Map(c.videoUrls, Thumbnail), "", if |c.videoUrls| > 0 then Some(c.videoUrls[0].time) else None)
  }

  /** `findImageChat()`. */
  function PhotoLines(chats: seq<ChatPair>): seq<PhotoLine>
  {
    Map(Filter(chats, HasMedia), LineOf)
  }

  /** The feed follows the store's order: it is built message by message. */
  lemma PhotoLinesAppend(a: seq<ChatPair>, b: seq<ChatPair>)
    ensures PhotoLines(a + b) == PhotoLines(a) + PhotoLines(b)
  {
    FilterAppend(a, b, HasMedia);
    MapAppend(Filter(a, HasMedia), Filter(b, HasMedia), LineOf);
  }

  /** A single message contributes one line when it carries media, none otherwise. */
  lemma PhotoLinesSingleton(p: ChatPair)
    ensures PhotoLines([p]) == if HasMedia(p) then [LineOf(p)] else []
  {
    FilterSingleton(p, HasMedia);
  }

  /** Every line stands for one message of the store that carries media: its
      id, an empty caption, and either that message's image urls with no
      duration, or its video thumbnails with the first video's duration. */
  lemma PhotoLineAt(chats: seq<ChatPair>, j: nat)
    requires j < |PhotoLines(chats)|
    ensures exists k :: 0 <= k < |chats| && LineFrom(PhotoLines(chats)[j], chats[k])
  {
    var kept := Filter(chats, HasMedia);
    assert kept[j] in chats;
    var k :| 0 <= k < |chats| && chats[k] == kept[j];
    assert LineFrom(PhotoLines(chats)[j], chats[k]);
  }

  /** `line` is the photo line of the media-carrying message `p`. */
  predicate LineFrom(line: PhotoLine, p: ChatPair)
  {
    var c := p.parentChatting;
    && (|c.imageUrls| > 0 || |c.videoUrls| > 0)
    && line.i == c.id
    && line.c == ""
    && (|c.imageUrls| > 0 ==> line.u == c.imageUrls && line.t == None)
    && (|c.imageUrls| == 0 ==>
          && |line.u| == |c.videoUrls|
          && (forall v :: 0 <= v < |c.videoUrls| ==> line.u[v] == c.videoUrls[v].thumbnailUrl)
          && line.t == Some(c.videoUrls[0].time))
  }

  /** The body of `getPhotoDetailHandler`: the attachments of the first message
      with this id, each photo paired with an id the caller supplies in place of
      `uuidv4()`, and only the first video kept. */
  function PhotoDetailOf(chats: seq<ChatPair>, chattingId: Id, photoIds: seq<Id>, videoId: Id): (d: PhotoDetail)
    requires HasChat(chats, chattingId)
    requires |photoIds| == |FindChat(chats, chattingId).imageUrls|
    ensures d.id == chattingId
    ensures d.name == chats[FirstIndex(chats, chattingId)].parentChatting.writer.name
    ensures d.createdAt == chats[FirstIndex(chats, chattingId)].parentChatting.createdAt
    ensures |d.photos| == |photoIds|
    ensures forall i :: 0 <= i < |d.photos| ==>
              d.photos[i] == PhotoItem(photoIds[i], chats[FirstIndex(chats, chattingId)].parentChatting.imageUrls[i])
    ensures d.video.None? <==> chats[FirstIndex(chats, chattingId)].parentChatting.videoUrls == []
    ensures d.video.Some? ==>
              d.video.value == VideoItem(videoId, chats[FirstIndex(chats, chattingId)].parentChatting.videoUrls[0])
  {
    var c := FindChat(chats, chattingId);
    PhotoDetail(
      c.id,
      c.createdAt,
      c.writer.name,
      seq(|c.imageUrls|, i requires 0 <= i < |c.imageUrls| => PhotoItem(photoIds[i], c.imageUrls[i])),
      if |c.videoUrls| > 0 then Some(VideoItem(videoId, c.videoUrls[0])) else None)
  }
}
