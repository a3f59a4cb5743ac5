/** The store updates performed by the `onSuccess` callbacks and by the
    "create chat" listener, each as a function from the old collection to the
    new one, with the facts that relate them. */
module ChatMutations {
  import opened Wrappers
  import opened ChatTypes
  import opened Seqs
  import opened ChatLookup
  import opened ChatViews

  /** `new Date('2024.02.14')`, read as midnight UTC (the engine reads this
      non-ISO string in the host's time zone). */
  const ARCHIVED_AT: Date := 1707868800000

  /** Who `CREATE_CHAT` writes as: id '1', named 연주. */
  const CREATOR_ID: Id := "1"
  const CREATOR_NAME: string := "\U{C5F0}\U{C8FC}"

  // ---------------------------------------------------------------- delete

  /** The filter predicate `chat.parentChatting.id !== chattingId`. */
  function WithoutId(id: Id): ChatPair -> bool
  {
    (p: ChatPair) => p.parentChatting.id != id
  }

  /** `deleteOurChatHandler.onSuccess`. */
  function RemoveChat(chats: seq<ChatPair>, chattingId: Id): seq<ChatPair>
  {
    Filter(chats, WithoutId(chattingId))
  }

  /** After a delete no entry with that id is left, every copy of every other
      entry is kept, and the survivors stay in order. */
  lemma RemoveChatSpec(chats: seq<ChatPair>, chattingId: Id, p: ChatPair)
    ensures !HasChat(RemoveChat(chats, chattingId), chattingId)
    ensures multiset(RemoveChat(chats, chattingId))[p]
            == if p.parentChatting.id == chattingId then 0 else multiset(chats)[p]
    ensures forall a, b :: chats == a + b ==>
              RemoveChat(chats, chattingId) == RemoveChat(a, chattingId) + RemoveChat(b, chattingId)
  {
    FilterCount(chats, WithoutId(chattingId), p);
    forall a, b | chats == a + b
      ensures RemoveChat(chats, chattingId) == RemoveChat(a, chattingId) + RemoveChat(b, chattingId)
    {
      FilterAppend(a, b, WithoutId(chattingId));
    }
  }

  /** Deleting an id that is not there changes nothing, so a second delete is a no-op. */
  lemma RemoveChatAbsent(chats: seq<ChatPair>, chattingId: Id)
    requires !HasChat(chats, chattingId)
    ensures RemoveChat(chats, chattingId) == chats
  {
    FilterKeepsAll(chats, WithoutId(chattingId));
  }

  lemma RemoveChatIdempotent(chats: seq<ChatPair>, chattingId: Id)
    ensures RemoveChat(RemoveChat(chats, chattingId), chattingId) == RemoveChat(chats, chattingId)
  {
    FilterIdempotent(chats, WithoutId(chattingId));
  }

  /** Deleting one message does not change what any other id looks up. */
  lemma FindChatAfterRemove(chats: seq<ChatPair>, chattingId: Id, other: Id)
    requires HasChat(chats, other) && other != chattingId
    ensures HasChat(RemoveChat(chats, chattingId), other)
    ensures FindChat(RemoveChat(chats, chattingId), other) == FindChat(chats, other)
  {
    var k := FirstIndex(chats, other);
    var before, at, after := chats[..k], chats[k], chats[k + 1..];
    assert chats == before + ([at] + after);
    FilterAppend(before, [at] + after, WithoutId(chattingId));
    FilterAppend([at], after, WithoutId(chattingId));
    FilterSingleton(at, WithoutId(chattingId));
    var kept := RemoveChat(before, chattingId);
    assert RemoveChat(chats, chattingId) == kept + ([at] + RemoveChat(after, chattingId));
    forall j | 0 <= j < |kept| ensures kept[j].parentChatting.id != other {
      assert kept[j] in before;
    }
    FindChatAt(kept + ([at] + RemoveChat(after, chattingId)), other, |kept|);
  }

  /** The photo feed after a delete is the old feed without that message's line. */
  lemma {:induction false} PhotoLinesAfterRemove(chats: seq<ChatPair>, chattingId: Id)
    ensures PhotoLines(RemoveChat(chats, chattingId))
            == Filter(PhotoLines(chats), (l: PhotoLine) => l.i != chattingId)
  {
    var notLine := (l: PhotoLine) => l.i != chattingId;
    if chats == [] {
    } else {
      var p, rest := chats[0], chats[1..];
      assert chats == [p] + rest;
      PhotoLinesAfterRemove(rest, chattingId);
      FilterAppend([p], rest, WithoutId(chattingId));
      FilterSingleton(p, WithoutId(chattingId));
      PhotoLinesAppend(Filter([p], WithoutId(chattingId)), RemoveChat(rest, chattingId));
      PhotoLinesAppend([p], rest);
      PhotoLinesSingleton(p);
      FilterAppend(PhotoLines([p]), PhotoLines(rest), notLine);
      if HasMedia(p) {
        FilterSingleton(LineOf(p), notLine);
      }
    }
  }

  // ---------------------------------------------------------------- notice

  /** The snapshot `{id, content ?? '', announcer: Writer.name, isFolden}`. */
  function NoticeOf(c: Chatting, isFolden: bool): Notice
  {
    Notice(c.id, ContentOrEmpty(c.content), c.writer.name, isFolden)
  }

  /** `postNoticeHandler.onSuccess`: the announced message's snapshot, unfolded. */
  function Notify(chats: seq<ChatPair>, chattingId: Id): (n: Notice)
    requires HasChat(chats, chattingId)
    ensures n.id == chattingId && !n.isFolden
    ensures n.content == ContentOrEmpty(chats[FirstIndex(chats, chattingId)].parentChatting.content)
    ensures n.announcer == chats[FirstIndex(chats, chattingId)].parentChatting.writer.name
  {
    NoticeOf(FindChat(chats, chattingId), false)
  }

  /** `!origin?.isFolden`: the flag flips, and no notice reads as unfolded. */
  function FoldedAfter(notice: Option<Notice>): bool
  {
    !(notice.Some? && notice.value.isFolden)
  }

  /** `postNoticeFoldHandler.onSuccess`: the snapshot is rebuilt from `noticeId`'s
      message, whatever message the old notice showed, and the flag is flipped. */
  function Fold(chats: seq<ChatPair>, notice: Option<Notice>, noticeId: Id): (n: Notice)
    requires HasChat(chats, noticeId)
    ensures n.isFolden == (notice.None? || !notice.value.isFolden)
    ensures n == NoticeOf(chats[FirstIndex(chats, noticeId)].parentChatting, n.isFolden)
  {
    NoticeOf(FindChat(chats, noticeId), FoldedAfter(notice))
  }

  /** Folding the notice just posted gives the same snapshot, folded; folding
      again unfolds it. */
  lemma FoldAfterNotify(chats: seq<ChatPair>, chattingId: Id)
    requires HasChat(chats, chattingId)
    ensures Fold(chats, Some(Notify(chats, chattingId)), chattingId)
            == Notify(chats, chattingId).(isFolden := true)
    ensures Fold(chats, Some(Fold(chats, Some(Notify(chats, chattingId)), chattingId)), chattingId)
            == Notify(chats, chattingId)
  {
  }

  /** Two folds with the same id restore the flag (an absent notice counts as unfolded). */
  lemma FoldTwice(chats: seq<ChatPair>, notice: Option<Notice>, noticeId: Id)
    requires HasChat(chats, noticeId)
    ensures Fold(chats, Some(Fold(chats, notice, noticeId)), noticeId).isFolden
            == (notice.Some? && notice.value.isFolden)
  {
  }

  // ---------------------------------------------------------------- archive

  /** The archived snapshot `{chattingId, content ?? '', writerName, writedAt, archivedAt}`. */
  function ArchivedOf(c: Chatting, archivedAt: Date): Archived
  {
    Archived(c.id, ContentOrEmpty(c.content), c.writer.name, c.createdAt, archivedAt)
  }

  /** `postArchivedChatHandler.onSuccess`: append a snapshot of the first match. */
  function Archive(archived: seq<Archived>, chats: seq<ChatPair>, chattingId: Id): (r: seq<Archived>)
    requires HasChat(chats, chattingId)
    ensures |r| == |archived| + 1 && r[..|archived|] == archived
    ensures r[|archived|] == ArchivedOf(chats[FirstIndex(chats, chattingId)].parentChatting, ARCHIVED_AT)
    ensures r[|archived|].chattingId == chattingId
  {
    archived + [ArchivedOf(FindChat(chats, chattingId), ARCHIVED_AT)]
  }

  /** The filter predicate `archived.chattingId !== chattingId`. */
  function NotArchivedAs(id: Id): Archived -> bool
  {
    (a: Archived) => a.chattingId != id
  }

  /** `deleteArchivedChatHandler.onSuccess`. */
  function Unarchive(archived: seq<Archived>, chattingId: Id): seq<Archived>
  {
    Filter(archived, NotArchivedAs(chattingId))
  }

  /** Un-archiving removes every entry with that id, duplicates included, and
      keeps every copy of the others in order. */
  lemma UnarchiveSpec(archived: seq<Archived>, chattingId: Id, e: Archived)
    ensures forall i :: 0 <= i < |Unarchive(archived, chattingId)| ==>
              Unarchive(archived, chattingId)[i].chattingId != chattingId
    ensures multiset(Unarchive(archived, chattingId))[e]
            == if e.chattingId == chattingId then 0 else multiset(archived)[e]
    ensures forall a, b :: archived == a + b ==>
              Unarchive(archived, chattingId) == Unarchive(a, chattingId) + Unarchive(b, chattingId)
  {
    FilterCount(archived, NotArchivedAs(chattingId), e);
    forall a, b | archived == a + b
      ensures Unarchive(archived, chattingId) == Unarchive(a, chattingId) + Unarchive(b, chattingId)
    {
      FilterAppend(a, b, NotArchivedAs(chattingId));
    }
  }

  /** Un-archiving undoes any archiving of the same message. */
  lemma UnarchiveAfterArchive(archived: seq<Archived>, chats: seq<ChatPair>, chattingId: Id)
    requires HasChat(chats, chattingId)
    ensures Unarchive(Archive(archived, chats, chattingId), chattingId) == Unarchive(archived, chattingId)
  {
    var entry := ArchivedOf(FindChat(chats, chattingId), ARCHIVED_AT);
    FilterAppend(archived, [entry], NotArchivedAs(chattingId));
    FilterSingleton(entry, NotArchivedAs(chattingId));
  }

  /** Archiving the same message twice leaves two entries; one un-archive removes both. */
  lemma ArchiveTwiceUnarchiveOnce(archived: seq<Archived>, chats: seq<ChatPair>, chattingId: Id)
    requires HasChat(chats, chattingId)
    ensures |Archive(Archive(archived, chats, chattingId), chats, chattingId)| == |archived| + 2
    ensures Unarchive(Archive(Archive(archived, chats, chattingId), chats, chattingId), chattingId)
            == Unarchive(archived, chattingId)
  {
    UnarchiveAfterArchive(Archive(archived, chats, chattingId), chats, chattingId);
    UnarchiveAfterArchive(archived, chats, chattingId);
  }

  // ---------------------------------------------------------------- create

  /** The message the `CREATE_CHAT` listener builds; `freshId` and `now` stand
      for `uuidv4()` and `new Date()`. `emojiId && emojiId` is `emojiId`. */
  function NewChat(dto: CreateChatting, freshId: Id, now: Date, defaultImage: Url): Chatting
  {
    Chatting(
      freshId,
      dto.content,
      dto.emojiId,
      seq(|dto.imageIds|, _ => defaultImage),
      [],
      [],
      now,
      true,
      Writer(CREATOR_ID, CREATOR_NAME, defaultImage))
  }

  /** `chatData = [...chatData, {parentChatting: data, childChatting: null}]`. */
  function AppendChat(chats: seq<ChatPair>, dto: CreateChatting, freshId: Id, now: Date, defaultImage: Url): seq<ChatPair>
  {
    chats + [ChatPair(NewChat(dto, freshId, now, defaultImage), None)]
  }

  /** Creating a message adds one entry at the end, leaves the others as they
      were, and the new entry is the client's own message with one placeholder
      image per uploaded image id and no video or voice attachment. */
  lemma AppendChatSpec(chats: seq<ChatPair>, dto: CreateChatting, freshId: Id, now: Date, defaultImage: Url)
    ensures var r := AppendChat(chats, dto, freshId, now, defaultImage);
            && |r| == |chats| + 1 && r[..|chats|] == chats
            && r[|chats|].childChatting == None
            && var c := r[|chats|].parentChatting;
               && c.id == freshId && c.content == dto.content && c.createdAt == now
               && |c.imageUrls| == |dto.imageIds|
               && (forall i :: 0 <= i < |c.imageUrls| ==> c.imageUrls[i] == defaultImage)
               && c.videoUrls == [] && c.voiceMsgUrls == []
               && c.isMine && c.writer.id == CREATOR_ID
  {
    var r := AppendChat(chats, dto, freshId, now, defaultImage);
    assert r[..|chats|] == chats;
  }

  /** A fresh id finds the new message; ids already present still find what they found. */
  lemma FindAfterAppend(chats: seq<ChatPair>, dto: CreateChatting, freshId: Id, now: Date, defaultImage: Url, id: Id)
    requires id == freshId ==> !HasChat(chats, freshId)
    requires id != freshId ==> HasChat(chats, id)
    ensures HasChat(AppendChat(chats, dto, freshId, now, defaultImage), id)
    ensures FindChat(AppendChat(chats, dto, freshId, now, defaultImage), id)
            == if id == freshId then NewChat(dto, freshId, now, defaultImage) else FindChat(chats, id)
  {
    var r := AppendChat(chats, dto, freshId, now, defaultImage);
    if id == freshId {
      FindChatAt(r, id, |chats|);
    } else {
      FindChatAppend(chats, [ChatPair(NewChat(dto, freshId, now, defaultImage), None)], id);
    }
  }

  /** A new message with images adds one line of placeholders to the end of the
      photo feed; one without images leaves the feed as it was. */
  lemma PhotoLinesAfterAppend(chats: seq<ChatPair>, dto: CreateChatting, freshId: Id, now: Date, defaultImage: Url)
    ensures PhotoLines(AppendChat(chats, dto, freshId, now, defaultImage))
            == PhotoLines(chats)
               + if |dto.imageIds| > 0
                 then [PhotoLine(freshId, seq(|dto.imageIds|, _ => defaultImage), "", None)]
                 else []
  {
    var p := ChatPair(NewChat(dto, freshId, now, defaultImage), None);
    PhotoLinesAppend(chats, [p]);
    PhotoLinesSingleton(p);
  }
}
