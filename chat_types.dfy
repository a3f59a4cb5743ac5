/** A stock optional value: JavaScript's `null`/`undefined` versus a present value. */
module Wrappers {
  datatype Option<+T> = None | Some(value: T)
}

/** The records the chat mock backend keeps and returns (models/chat). */
module ChatTypes {
  import opened Wrappers

  type Id = string
  type Url = string
  /** A `Date`, as milliseconds since the epoch. */
  type Date = int

  /** The author of a chat message. */
  datatype Writer = Writer(id: Id, name: string, imageUrl: Url)

  /** A video attachment; `time` is its displayed duration. */
  datatype Video = Video(url: Url, thumbnailUrl: Url, time: int)

  /** `ChattingDto`: one chat message. */
  datatype Chatting = Chatting(
    id: Id,
    content: Option<string>,
    emojiUrl: Option<Url>,
    imageUrls: seq<Url>,
    videoUrls: seq<Video>,
    voiceMsgUrls: seq<Url>,
    createdAt: Date,
    isMine: bool,
    writer: Writer)

  /** `ParentChildChattingDto`: a message and the optional reply attached to it. */
  datatype ChatPair = ChatPair(parentChatting: Chatting, childChatting: Option<Chatting>)

  /** `Notice`: the display snapshot of the announced message. */
  datatype Notice = Notice(id: Id, content: string, announcer: string, isFolden: bool)

  /** `ChattingArchivedDto`: a snapshot of an archived message. */
  datatype Archived = Archived(
    chattingId: Id,
    content: string,
    writerName: string,
    writedAt: Date,
    archivedAt: Date)

  /** `CreateChattingDto`: what a client sends on the "create chat" channel. */
  datatype CreateChatting = CreateChatting(content: Option<string>, emojiId: Option<Id>, imageIds: seq<Id>)

  /** `ChatPhotoLineDto`: one line of the photo feed (id, thumbnails, caption, duration). */
  datatype PhotoLine = PhotoLine(i: Id, u: seq<Url>, c: string, t: Option<int>)

  /** One photo or the video of a photo detail, with its synthesised id. */
  datatype PhotoItem = PhotoItem(id: Id, url: Url)
  datatype VideoItem = VideoItem(id: Id, video: Video)

  /** `ChatPhotoDto`: the attachments of one message, expanded. */
  datatype PhotoDetail = PhotoDetail(
    id: Id,
    createdAt: Date,
    name: string,
    photos: seq<PhotoItem>,
    video: Option<VideoItem>)

  /** `content ?? ''`. */
  function ContentOrEmpty(content: Option<string>): string
  {
    match content
    case Some(text) => text
    case None => ""
  }
}
