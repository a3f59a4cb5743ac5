/** `getPartialChat` and the query defaults of `getChatsHandler`: the
    reverse-chronological window over the chat list. */
module Pagination {
  import opened Wrappers

  function Max(a: int, b: int): int { if a < b then b else a }
  function Min(a: int, b: int): int { if a < b then a else b }

  /** How `Array.prototype.slice` reads an integer index: a negative one counts
      back from the end, and both are clamped into `[0, len]`. */
  function SliceIndex(k: int, len: nat): (r: nat)
    ensures r <= len
    ensures 0 <= k <= len ==> r == k
    ensures k > len ==> r == len
    ensures k < 0 && len + k >= 0 ==> r == len + k
    ensures len + k < 0 ==> r == 0
  {
    if k < 0 then (if len + k < 0 then 0 else len + k)
    else if k > len then len
    else k
  }

  /** `s.slice(start, end)` for integer arguments. */
  function JsSlice<T>(s: seq<T>, start: int, end: int): seq<T>
  {
    var from, to := SliceIndex(start, |s|), SliceIndex(end, |s|);
    if from < to then s[from..to] else []
  }

  /** `getPartialChat({base, limit})`: note that the end of the slice is computed
      from the start BEFORE it is clamped to zero. */
  function PartialChat<T>(chats: seq<T>, base: int, limit: int): seq<T>
  {
    var startIndex := |chats| - base - limit;
    if |chats| <= base then []
    else JsSlice(chats, if startIndex < 0 then 0 else startIndex, startIndex + limit)
  }

  /** Pagination is exhausted once the caller already has `base >= N` items. */
  lemma PartialChatExhausted<T>(chats: seq<T>, base: int, limit: int)
    requires |chats| <= base
    ensures PartialChat(chats, base, limit) == []
  {
  }

  /** For a well-formed request the page is exactly the `limit` items (or fewer)
      just before the last `base` ones. */
  lemma PartialChatWindow<T>(chats: seq<T>, base: int, limit: int)
    requires 0 <= base < |chats| && 0 < limit
    ensures PartialChat(chats, base, limit) == chats[Max(0, |chats| - base - limit) .. |chats| - base]
    ensures |PartialChat(chats, base, limit)| == Min(limit, |chats| - base)
  {
  }

  /** Whatever integers are passed, a page is a contiguous run of the chat list
      that never reaches into the last `base` items. */
  lemma PartialChatContiguous<T>(chats: seq<T>, base: int, limit: int)
    ensures exists lo, hi :: 0 <= lo <= hi <= Max(0, |chats| - Max(0, base)) && PartialChat(chats, base, limit) == chats[lo..hi]
  {
    var n := |chats|;
    if n <= base {
      assert PartialChat(chats, base, limit) == chats[0..0];
    } else {
      var startIndex := n - base - limit;
      var from := SliceIndex(if startIndex < 0 then 0 else startIndex, n);
      var to := SliceIndex(startIndex + limit, n);
      if from < to {
        assert PartialChat(chats, base, limit) == chats[from..to];
      } else {
        assert PartialChat(chats, base, limit) == chats[0..0];
      }
    }
  }

  /** Two successive pages (the second asked for with `base + limit`) are
      adjacent: together they form one contiguous run, older page first. */
  lemma ConsecutivePages<T>(chats: seq<T>, base: int, limit: int)
    requires 0 <= base && 0 < limit && base + limit < |chats|
    ensures PartialChat(chats, base + limit, limit) + PartialChat(chats, base, limit)
            == chats[Max(0, |chats| - base - 2 * limit) .. |chats| - base]
  {
    var n := |chats|;
    PartialChatWindow(chats, base, limit);
    PartialChatWindow(chats, base + limit, limit);
    assert chats[Max(0, n - base - 2 * limit) .. n - base - limit] + chats[n - base - limit .. n - base]
           == chats[Max(0, n - base - 2 * limit) .. n - base];
  }

  /** What an infinite-scroll client holds after `pages` requests, the first
      with `base` and each next one with `base` grown by `limit`: each newly
      fetched page goes in front of what it already has. */
  function Scrolled<T>(chats: seq<T>, base: int, limit: int, pages: nat): seq<T>
    decreases pages
  {
    if pages == 0 then []
    else Scrolled(chats, base + limit, limit, pages - 1) + PartialChat(chats, base, limit)
  }

  /** `pages * limit`, spelt out as repeated addition so that the proofs stay linear. */
  function Span(limit: int, pages: nat): (r: int)
    ensures 0 <= limit ==> 0 <= r
  {
    if pages == 0 then 0 else limit + Span(limit, pages - 1)
  }

  lemma {:induction false} SpanIsProduct(limit: int, pages: nat)
    ensures Span(limit, pages) == pages * limit
  {
    if pages > 0 {
      SpanIsProduct(limit, pages - 1);
    }
  }

  /** The pages never overlap and leave no gap: starting from `base`, after
      `pages` requests the client holds exactly the `pages * limit` items (or
      fewer) before the last `base`, in the list's order. */
  lemma {:induction false} ScrolledIsRun<T>(chats: seq<T>, base: int, limit: int, pages: nat)
    requires 0 <= base && 0 < limit
    decreases pages
    ensures Scrolled(chats, base, limit, pages)
            == chats[Max(0, |chats| - base - Span(limit, pages)) .. Max(0, |chats| - base)]
  {
    if pages > 0 {
      var n := |chats|;
      var lo := Max(0, n - base - Span(limit, pages));
      var mid := Max(0, n - base - limit);
      var hi := Max(0, n - base);
      ScrolledIsRun(chats, base + limit, limit, pages - 1);
      PageBounds(chats, base, limit);
      SliceSplit(chats, lo, mid, hi);
    }
  }

  /** `ScrolledIsRun` with the span written as the product `pages * limit`. */
  lemma ScrolledIsRunProduct<T>(chats: seq<T>, base: int, limit: int, pages: nat)
    requires 0 <= base && 0 < limit
    ensures Scrolled(chats, base, limit, pages)
            == chats[Max(0, |chats| - base - pages * limit) .. Max(0, |chats| - base)]
  {
    ScrolledIsRun(chats, base, limit, pages);
    SpanIsProduct(limit, pages);
  }

  /** Any well-formed page, exhausted or not, as one slice. */
  lemma PageBounds<T>(chats: seq<T>, base: int, limit: int)
    requires 0 <= base && 0 < limit
    ensures PartialChat(chats, base, limit) == chats[Max(0, |chats| - base - limit) .. Max(0, |chats| - base)]
  {
    if |chats| > base {
      PartialChatWindow(chats, base, limit);
    }
  }

  lemma SliceSplit<T>(s: seq<T>, lo: int, mid: int, hi: int)
    requires 0 <= lo <= mid <= hi <= |s|
    ensures s[lo..mid] + s[mid..hi] == s[lo..hi]
  {
  }

  /** Ten messages: the first page is indices 2..9 and the second, whose start
      is clamped to zero, is indices 0..1 only, so the two do not overlap. */
  lemma TenMessages<T>(chats: seq<T>)
    requires |chats| == 10
    ensures PartialChat(chats, 0, 8) == chats[2..10]
    ensures PartialChat(chats, 8, 8) == chats[0..2]
  {
  }

  /** The result of `Number(...)` on a query value: `NaN` or a finite number. */
  datatype JsNumber = NaN | Finite(value: int)

  /** `Number(searchParams.get(name))`: an absent parameter is `Number(null)`, zero. */
  function NumberOf(param: Option<JsNumber>): JsNumber
  {
    match param
    case None => Finite(0)
    case Some(n) => n
  }

  /** `x || d`: `NaN` and `0` are falsy and give the default. */
  function OrDefault(x: JsNumber, d: int): int
  {
    match x
    case NaN => d
    case Finite(v) => if v == 0 then d else v
  }

  /** `ChatRequestDto` after defaulting. */
  datatype ChatRequest = ChatRequest(base: int, limit: int, offset: int)

  /** A parameter was given as a non-zero number. */
  predicate Given(param: Option<JsNumber>)
  {
    param.Some? && param.value.Finite? && param.value.value != 0
  }

  /** The defaults of `getChatsHandler`: base 0, limit 8, offset 0. */
  function ChatRequestOf(base: Option<JsNumber>, limit: Option<JsNumber>, offset: Option<JsNumber>): (r: ChatRequest)
    ensures r.limit != 0
    ensures r.base == (if Given(base) then base.value.value else 0)
    ensures r.limit == (if Given(limit) then limit.value.value else 8)
    ensures r.offset == (if Given(offset) then offset.value.value else 0)
  {
    ChatRequest(
      OrDefault(NumberOf(base), 0),
      OrDefault(NumberOf(limit), 8),
      OrDefault(NumberOf(offset), 0))
  }

  /** The page `getChatsHandler` puts under status 200. */
  function GetChats<T>(chats: seq<T>, base: Option<JsNumber>, limit: Option<JsNumber>, offset: Option<JsNumber>): seq<T>
  {
    var request := ChatRequestOf(base, limit, offset);
    PartialChat(chats, request.base, request.limit)
  }

  /** `offset` is parsed but plays no part in the page. */
  lemma OffsetIgnored<T>(chats: seq<T>, base: Option<JsNumber>, limit: Option<JsNumber>, o1: Option<JsNumber>, o2: Option<JsNumber>)
    ensures GetChats(chats, base, limit, o1) == GetChats(chats, base, limit, o2)
  {
  }

  /** With no usable parameters a request returns the last eight messages. */
  lemma DefaultPage<T>(chats: seq<T>, base: Option<JsNumber>, limit: Option<JsNumber>, offset: Option<JsNumber>)
    requires !Given(base) && !Given(limit)
    ensures GetChats(chats, base, limit, offset) == chats[Max(0, |chats| - 8)..]
  {
    if |chats| > 0 {
      PartialChatWindow(chats, 0, 8);
    }
  }
}
