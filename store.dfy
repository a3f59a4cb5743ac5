/** The fixture store of the chat mock backend: the three module-level
    collections `chatData`, `noticeData` and `archivedData`, the read
    handlers over them and the updates that replace them. */
module ChatStore {
  import opened Wrappers
  import opened ChatTypes
  import opened ChatLookup
  import Pagination
  import opened ChatViews
  import opened ChatMutations

  class Store {
    var chatData: seq<ChatPair>
    var noticeData: Option<Notice>
    var archivedData: seq<Archived>
    /** The `ImgDefaultProfile` asset, used as every placeholder image. */
    const defaultImage: Url

    /** Module load: the seed messages, a notice on message '1' and two archived
        snapshots of messages '1' and '2', which the seed must therefore hold. */
    constructor (seed: seq<ChatPair>, defaultImage: Url)
      requires HasChat(seed, "1") && HasChat(seed, "2")
      ensures chatData == seed
      ensures noticeData == Some(Notify(seed, "1"))
      ensures archivedData == [ArchivedOf(FindChat(seed, "1"), ARCHIVED_AT), ArchivedOf(FindChat(seed, "2"), ARCHIVED_AT)]
      ensures this.defaultImage == defaultImage
    {
      chatData := seed;
      noticeData := Some(Notify(seed, "1"));
      archivedData := Archive(Archive([], seed, "1"), seed, "2");
      this.defaultImage := defaultImage;
    }

    // ------------------------------------------------------------ reads

    /** `getChatsHandler`: the requested page of the chat list. */
    method GetChats(base: Option<Pagination.JsNumber>, limit: Option<Pagination.JsNumber>, offset: Option<Pagination.JsNumber>)
      returns (page: seq<ChatPair>)
      ensures page == Pagination.GetChats(chatData, base, limit, offset)
    {
      var request := Pagination.ChatRequestOf(base, limit, offset);
      page := Pagination.PartialChat(chatData, request.base, request.limit);
    }

    /** `getNoticesHandler`: the current notice, `null` once hidden. */
    method GetNotice() returns (notice: Option<Notice>)
      ensures notice == noticeData
    {
      notice := noticeData;
    }

    /** `getArchivedChatHandler`: every archived snapshot, oldest first. */
    method GetArchived() returns (archived: seq<Archived>)
      ensures archived == archivedData
    {
      archived := archivedData;
    }

    /** `getPhotosHandler`: the photo feed of the current chat list. */
    method GetPhotos() returns (lines: seq<PhotoLine>)
      ensures lines == PhotoLines(chatData)
    {
      lines := PhotoLines(chatData);
    }

    /** `getPhotoDetailHandler`; `photoIds` and `videoId` stand for the
        `uuidv4()` calls, one per image and one for the video kept. */
    method GetPhotoDetail(chattingId: Id, photoIds: seq<Id>, videoId: Id) returns (detail: PhotoDetail)
      requires HasChat(chatData, chattingId)
      requires |photoIds| == |FindChat(chatData, chattingId).imageUrls|
      ensures detail == PhotoDetailOf(chatData, chattingId, photoIds, videoId)
    {
      detail := PhotoDetailOf(chatData, chattingId, photoIds, videoId);
    }

    // ------------------------------------------------------------ updates

    /** `deleteOurChatHandler.onSuccess`. */
    method DeleteOurChat(chattingId: Id)
      modifies this`chatData
      ensures chatData == RemoveChat(old(chatData), chattingId)
      ensures noticeData == old(noticeData) && archivedData == old(archivedData)
    {
      chatData := RemoveChat(chatData, chattingId);
    }

    /** `postNoticeHandler.onSuccess`; the message must exist. */
    method PostNotice(chattingId: Id)
      requires HasChat(chatData, chattingId)
      modifies this`noticeData
      ensures noticeData == Some(Notify(chatData, chattingId))
      ensures chatData == old(chatData) && archivedData == old(archivedData)
    {
      noticeData := Some(Notify(chatData, chattingId));
    }

    /** `postNoticeFoldHandler.onSuccess`; the message must exist. */
    method FoldNotice(noticeId: Id)
      requires HasChat(chatData, noticeId)
      modifies this`noticeData
      ensures noticeData == Some(Fold(chatData, old(noticeData), noticeId))
      ensures chatData == old(chatData) && archivedData == old(archivedData)
    {
      var origin := noticeData;
      noticeData := Some(Fold(chatData, origin, noticeId));
    }

    /** `postNoticeInvisibleHandler.onSuccess`: the id is not looked at. */
    method HideNotice(noticeId: Id)
      modifies this`noticeData
      ensures noticeData == None
      ensures chatData == old(chatData) && archivedData == old(archivedData)
    {
      noticeData := None;
    }

    /** `postArchivedChatHandler.onSuccess`; the message must exist. */
    method ArchiveChat(chattingId: Id)
      requires HasChat(chatData, chattingId)
      modifies this`archivedData
      ensures archivedData == Archive(old(archivedData), chatData, chattingId)
      ensures chatData == old(chatData) && noticeData == old(noticeData)
    {
      archivedData := Archive(archivedData, chatData, chattingId);
    }

    /** `deleteArchivedChatHandler.onSuccess`. */
    method DeleteArchived(chattingId: Id)
      modifies this`archivedData
      ensures archivedData == Unarchive(old(archivedData), chattingId)
      ensures chatData == old(chatData) && noticeData == old(noticeData)
    {
      archivedData := Unarchive(archivedData, chattingId);
    }

    /** The `CREATE_CHAT` listener: append the new message and return the
        payload it broadcasts on `GET_CHAT`. `freshId` and `now` stand for
        `uuidv4()` and `new Date()`. */
    method CreateChat(dto: CreateChatting, freshId: Id, now: Date) returns (broadcast: Chatting)
      modifies this`chatData
      ensures chatData == AppendChat(old(chatData), dto, freshId, now, defaultImage)
      ensures broadcast == chatData[|chatData| - 1].parentChatting
      ensures noticeData == old(noticeData) && archivedData == old(archivedData)
    {
      broadcast := NewChat(dto, freshId, now, defaultImage);
      chatData := chatData + [ChatPair(broadcast, None)];
    }
  }
}
