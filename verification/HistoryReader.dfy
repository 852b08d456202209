/** Searching a bot's history page by page (with a valid query) and reading one message piece by piece, while the history may change. */
module HistoryReader {
  import opened Options

  datatype Message = Message(id: string, text: string)
  datatype Result<T> = Ok(value: T) | Err(code: string)

  const PAGE := 20
  const PIECE := 4000

  /** What the query selects: lower-casing and the substring test are parameters. */
  type Query = string -> bool

  datatype Page = Page(messages: seq<Message>, nextCursor: Option<string>)
  datatype Piece = Piece(text: string, revision: string, nextOffset: Option<nat>)

  // ---------- search ----------

  /** The matching messages, newest first. */
  function Matches(messages: seq<Message>, query: Query): seq<Message> {
    if messages == [] then []
    else
      var last := messages[|messages| - 1];
      (if query(last.text) then [last] else []) + Matches(messages[..|messages| - 1], query)
  }

  method CollectMatches(messages: seq<Message>, query: Query) returns (matches: seq<Message>)
    ensures matches == Matches(messages, query)
  {
    matches := [];
    var i := |messages| - 1;
    assert messages[..i + 1] == messages;
    while i >= 0
      invariant -1 <= i < |messages|
      invariant Matches(messages, query) == matches + Matches(messages[..i + 1], query)
    {
      assert messages[..i + 1][..i] == messages[..i];
      if query(messages[i].text) {
        assert matches + ([messages[i]] + Matches(messages[..i], query)) == matches + [messages[i]] + Matches(messages[..i], query);
        matches := matches + [messages[i]];
      } else {
        assert [] + Matches(messages[..i], query) == Matches(messages[..i], query);
      }
      i := i - 1;
    }
    assert matches + [] == matches;
  }

  /** `findIndex`, -1 when there is none. */
  function FindIndex(matches: seq<Message>, id: string): (i: int)
    ensures -1 <= i < |matches| && (i >= 0 ==> matches[i].id == id)
    ensures i < 0 ==> forall j :: 0 <= j < |matches| ==> matches[j].id != id
  {
    if matches == [] then -1
    else if matches[0].id == id then 0
    else
      var i := FindIndex(matches[1..], id);
      assert forall j :: 1 <= j < |matches| ==> matches[j] == matches[1..][j - 1];
      if i < 0 then -1 else i + 1
  }

  function Min(a: int, b: int): int {
    if a < b then a else b
  }

  function PageAfter(matches: seq<Message>, at: int): Page
    requires -1 <= at < |matches|
  {
    var page := matches[at + 1..Min(at + 1 + PAGE, |matches|)];
    Page(page, if |matches| > at + 1 + PAGE then Some(page[|page| - 1].id) else None)
  }

  /** The page of these matches after a cursor. */
  function SearchIn(matches: seq<Message>, cursor: Option<string>): Result<Page> {
    var at := if cursor.None? then -1 else FindIndex(matches, cursor.value);
    if cursor.Some? && at < 0 then Err("BOT_HISTORY_CURSOR_INVALID")
    else if matches == [] then Ok(Page([], None))
    else Ok(PageAfter(matches, at))
  }

  function Search(messages: seq<Message>, query: Query, cursor: Option<string>): Result<Page> {
    SearchIn(Matches(messages, query), cursor)
  }

  predicate DistinctIds(messages: seq<Message>) {
    forall i, j :: 0 <= i < j < |messages| ==> messages[i].id != messages[j].id
  }

  lemma {:induction false} MatchesAre(messages: seq<Message>, query: Query, m: Message)
    ensures m in Matches(messages, query) <==> m in messages && query(m.text)
    decreases |messages|
  {
    if messages != [] {
      var init, last := messages[..|messages| - 1], messages[|messages| - 1];
      MatchesAre(init, query, m);
      assert messages == init + [last];
    }
  }

  lemma HeadDistinct(head: Message, rest: seq<Message>)
    requires DistinctIds(rest) && forall m :: m in rest ==> m.id != head.id
    ensures DistinctIds([head] + rest)
  {
  }

  lemma {:induction false} MatchesDistinct(messages: seq<Message>, query: Query)
    requires DistinctIds(messages)
    ensures DistinctIds(Matches(messages, query))
    decreases |messages|
  {
    if messages != [] {
      var init, last := messages[..|messages| - 1], messages[|messages| - 1];
      MatchesDistinct(init, query);
      forall m | m in Matches(init, query) ensures m.id != last.id {
        MatchesAre(init, query, m);
      }
      HeadDistinct(last, Matches(init, query));
      assert [] + Matches(init, query) == Matches(init, query);
    }
  }

  /** Following nextCursor from a cursor, for at most so many pages. */
  function Follow(messages: seq<Message>, query: Query, cursor: Option<string>, pages: nat): Result<seq<Message>>
    decreases pages
  {
    if pages == 0 then Err("PAGES")
    else match Search(messages, query, cursor)
      case Err(code) => Err(code)
      case Ok(page) =>
        if page.nextCursor.None? then Ok(page.messages)
        else match Follow(messages, query, page.nextCursor, pages - 1)
          case Err(code) => Err(code)
          case Ok(rest) => Ok(page.messages + rest)
  }

  lemma FoundAt(matches: seq<Message>, at: nat)
    requires DistinctIds(matches) && at < |matches|
    ensures FindIndex(matches, matches[at].id) == at
  {
  }

  function CursorAt(matches: seq<Message>, at: int): Option<string>
    requires -1 <= at < |matches|
  {
    if at < 0 then None else Some(matches[at].id)
  }

  lemma PageAt(matches: seq<Message>, at: int)
    requires DistinctIds(matches) && -1 <= at < |matches|
    ensures SearchIn(matches, CursorAt(matches, at)) == Ok(PageAfter(matches, at))
    ensures PageAfter(matches, at).nextCursor == if |matches| > at + 1 + PAGE then CursorAt(matches, at + PAGE) else None
  {
    if at >= 0 {
      FoundAt(matches, at);
    }
  }

  lemma FollowStep(messages: seq<Message>, query: Query, cursor: Option<string>, pages: nat, page: Page, rest: seq<Message>)
    requires pages > 0 && Search(messages, query, cursor) == Ok(page)
    requires page.nextCursor.Some? ==> Follow(messages, query, page.nextCursor, pages - 1) == Ok(rest)
    ensures Follow(messages, query, cursor, pages) == Ok(if page.nextCursor.None? then page.messages else page.messages + rest)
  {
  }

  lemma Slices(matches: seq<Message>, from: nat, end: nat)
    requires from <= end <= |matches|
    ensures matches[from..] == matches[from..end] + matches[end..] && matches[from..|matches|] == matches[from..]
  {
  }

  /** From the cursor at position `at`, the pages list exactly the later matches, in order. */
  lemma {:induction false} PagesFrom(messages: seq<Message>, query: Query, at: int, pages: nat)
    requires var matches := Matches(messages, query); DistinctIds(matches) && -1 <= at < |matches| && pages > |matches| - at
    ensures var matches := Matches(messages, query); Follow(messages, query, CursorAt(matches, at), pages) == Ok(matches[at + 1..])
    decreases pages
  {
    var matches := Matches(messages, query);
    PageAt(matches, at);
    if |matches| > at + 1 + PAGE {
      PagesFrom(messages, query, at + PAGE, pages - 1);
    }
    var end := Min(at + 1 + PAGE, |matches|);
    FollowStep(messages, query, CursorAt(matches, at), pages, PageAfter(matches, at), matches[end..]);
    Slices(matches, at + 1, end);
  }

  /** Following nextCursor to its end lists every matching message exactly once, newest first. */
  lemma PagesListMatches(messages: seq<Message>, query: Query, pages: nat)
    requires DistinctIds(messages) && pages > |Matches(messages, query)| + 1
    ensures Follow(messages, query, None, pages) == Ok(Matches(messages, query))
    ensures forall m :: m in Matches(messages, query) <==> m in messages && query(m.text)
    ensures DistinctIds(Matches(messages, query))
  {
    MatchesDistinct(messages, query);
    forall m: Message ensures m in Matches(messages, query) <==> m in messages && query(m.text) {
      MatchesAre(messages, query, m);
    }
    if Matches(messages, query) != [] {
      PagesFrom(messages, query, -1, pages);
    }
  }

  // ---------- read ----------

  function Find(messages: seq<Message>, id: string): Option<Message> {
    if messages == [] then None else if messages[0].id == id then Some(messages[0]) else Find(messages[1..], id)
  }

  /** `digest` stands for SHA-256 of the text. */
  function Read(messages: seq<Message>, digest: string -> string, id: string, offset: int, expected: Option<string>): Result<Piece> {
    if id == "" then Err("BOT_HISTORY_MESSAGE_INVALID")
    else if offset < 0 then Err("BOT_HISTORY_OFFSET_INVALID")
    else match Find(messages, id)
      case None => Err("BOT_HISTORY_MESSAGE_NOT_FOUND")
      case Some(message) =>
        if (offset > 0 || expected.Some?) && expected != Some(digest(message.text)) then Err("BOT_HISTORY_REVISION_CHANGED")
        else if offset > |message.text| then Err("BOT_HISTORY_OFFSET_INVALID")
        else
          var next := offset + PIECE;
          Ok(Piece(message.text[offset..Min(next, |message.text|)], digest(message.text),
                   if |message.text| > next then Some(next) else None))
  }

  /** A reader who follows nextOffset, quoting the revision it was first given; `histories[k]` is the
      history at its k-th read. */
  function ReadOn(histories: seq<seq<Message>>, digest: string -> string, id: string, offset: nat, expected: Option<string>): Result<string>
    decreases |histories|
  {
    if histories == [] then Err("READS")
    else match Read(histories[0], digest, id, offset, expected)
      case Err(code) => Err(code)
      case Ok(piece) =>
        if piece.nextOffset.None? then Ok(piece.text)
        else match ReadOn(histories[1..], digest, id, piece.nextOffset.value, Some(piece.revision))
          case Err(code) => Err(code)
          case Ok(rest) => Ok(piece.text + rest)
  }

  /** The digest tells apart the texts this message has in these histories. */
  predicate Distinguishes(digest: string -> string, histories: seq<seq<Message>>, id: string) {
    forall j, k :: 0 <= j < |histories| && 0 <= k < |histories| ==> SameIfDigest(digest, Find(histories[j], id), Find(histories[k], id))
  }

  predicate SameIfDigest(digest: string -> string, a: Option<Message>, b: Option<Message>) {
    a.Some? && b.Some? && digest(a.value.text) == digest(b.value.text) ==> a.value.text == b.value.text
  }

  /** The digest tells this text apart from every other one the message has. */
  predicate Recognises(digest: string -> string, histories: seq<seq<Message>>, id: string, text: string) {
    forall k :: 0 <= k < |histories| ==> SameIfDigest(digest, Find(histories[k], id), Some(Message(id, text)))
  }

  lemma {:induction false} RestIsOneText(histories: seq<seq<Message>>, digest: string -> string, id: string, offset: nat, text: string)
    requires Recognises(digest, histories, id, text)
    requires offset <= |text| && ReadOn(histories, digest, id, offset, Some(digest(text))).Ok?
    ensures ReadOn(histories, digest, id, offset, Some(digest(text))).value == text[offset..]
    decreases |histories|
  {
    var next := offset + PIECE;
    assert SameIfDigest(digest, Find(histories[0], id), Some(Message(id, text)));
    if |text| > next {
      assert forall k :: 0 <= k < |histories[1..]| ==> histories[1..][k] == histories[k + 1];
      RestIsOneText(histories[1..], digest, id, next, text);
      assert text[offset..] == text[offset..next] + text[next..];
    }
  }

  /** However the history changes between the reads, a reading that succeeds is the whole text the message had at the first. */
  lemma ReadingIsOneText(histories: seq<seq<Message>>, digest: string -> string, id: string)
    requires Distinguishes(digest, histories, id) && ReadOn(histories, digest, id, 0, None).Ok?
    ensures Find(histories[0], id).Some? && ReadOn(histories, digest, id, 0, None).value == Find(histories[0], id).value.text
  {
    var text := Find(histories[0], id).value.text;
    if |text| > PIECE {
      forall k | 0 <= k < |histories[1..]| ensures SameIfDigest(digest, Find(histories[1..][k], id), Some(Message(id, text))) {
        assert SameIfDigest(digest, Find(histories[k + 1], id), Find(histories[0], id));
      }
      RestIsOneText(histories[1..], digest, id, PIECE, text);
      assert text == text[..PIECE] + text[PIECE..];
    }
  }

  /** And with a fixed history enough reads always succeed. */
  lemma {:induction false} ReadingSucceeds(history: seq<Message>, digest: string -> string, id: string, offset: nat, expected: Option<string>, count: nat)
    requires id != "" && Find(history, id).Some? && offset <= |Find(history, id).value.text|
    requires expected == Some(digest(Find(history, id).value.text)) || (expected.None? && offset == 0)
    requires count > |Find(history, id).value.text| - offset
    ensures ReadOn(seq(count, _ => history), digest, id, offset, expected) == Ok(Find(history, id).value.text[offset..])
    decreases count
  {
    var text, next := Find(history, id).value.text, offset + PIECE;
    var histories := seq(count, _ => history);
    if |text| > next {
      assert histories[1..] == seq(count - 1, _ => history);
      ReadingSucceeds(history, digest, id, next, Some(digest(text)), count - 1);
      assert text[offset..] == text[offset..next] + text[next..];
    } else {
      assert text[offset..|text|] == text[offset..];
    }
  }

  // ---------- what is refused, and how much is given ----------

  /** A page holds at most 20 messages, and 20 whenever there is a further one; a cursor that names no match is refused. */
  lemma PagesAreFull(messages: seq<Message>, query: Query, cursor: Option<string>)
    ensures var r := Search(messages, query, cursor);
            && (r.Err? <==> cursor.Some? && forall m :: m in Matches(messages, query) ==> m.id != cursor.value)
            && (r.Ok? ==> |r.value.messages| <= 20 && (r.value.nextCursor.Some? ==> |r.value.messages| == 20))
  {
    if cursor.Some? && FindIndex(Matches(messages, query), cursor.value) >= 0 {
      assert Matches(messages, query)[FindIndex(Matches(messages, query), cursor.value)] in Matches(messages, query);
    }
  }

  /** The message a reader means: the first with that id. */
  lemma {:induction false} FindIs(messages: seq<Message>, id: string)
    ensures Find(messages, id).None? <==> forall m :: m in messages ==> m.id != id
    ensures Find(messages, id).Some? ==> Find(messages, id).value in messages && Find(messages, id).value.id == id
    decreases |messages|
  {
    if messages != [] {
      FindIs(messages[1..], id);
      assert messages == [messages[0]] + messages[1..];
    }
  }

  /** A read succeeds exactly for a known message, an offset within its text, and, past the start or when one is quoted,
      its present revision; it gives at most 4000 characters, and as many while there are more. */
  lemma ReadIff(messages: seq<Message>, digest: string -> string, id: string, offset: int, expected: Option<string>)
    ensures var r, found := Read(messages, digest, id, offset, expected), Find(messages, id);
            && (r.Ok? <==>
                && id != "" && offset >= 0 && found.Some? && offset <= |found.value.text|
                && (offset > 0 || expected.Some? ==> expected == Some(digest(found.value.text))))
            && (r.Ok? ==>
                && r.value.text == found.value.text[offset..offset + |r.value.text|] && |r.value.text| <= 4000
                && r.value.revision == digest(found.value.text)
                && (if offset + |r.value.text| < |found.value.text| then |r.value.text| == 4000 && r.value.nextOffset == Some(offset + 4000)
                    else r.value.nextOffset.None?))
  {
  }
}
