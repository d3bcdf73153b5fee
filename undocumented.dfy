/**
 * The undocumented-endpoint helpers of the client: the arithmetic and list
 * building they do around their fetches. Every fetch is an input here: the
 * clip record, the pages the comments endpoint returns in turn, the chatters
 * response and the status code of the username probe.
 */
module Undocumented {
  import opened Wrappers
  import opened Text
  import opened Http

  /** A GET of an absolute URL with query parameters. */
  datatype Query = Query(url: string, params: seq<Param>)

  // ===== Clip chat: the VOD offset ==========================================

  /** VODs run two seconds behind the clips cut from them. */
  const VodLag := 2

  /** A well-formed VOD offset `<h>h<m>m<s>s`: each part is an optional run
      of decimal digits followed by its marker. */
  datatype OffsetParts = OffsetParts(hours: Option<string>, minutes: Option<string>, seconds: Option<string>)

  predicate PartValid(o: Option<string>) {
    o.None? || IsDigits(o.value)
  }

  predicate ValidParts(p: OffsetParts) {
    PartValid(p.hours) && PartValid(p.minutes) && PartValid(p.seconds)
  }

  function Part(o: Option<string>, marker: char): string {
    if o.Some? then o.value + [marker] else ""
  }

  /** The offset text the parts spell. */
  function Render(p: OffsetParts): string {
    Part(p.hours, 'h') + Part(p.minutes, 'm') + Part(p.seconds, 's')
  }

  function PartValue(o: Option<string>): nat
    requires PartValid(o)
  {
    if o.Some? then DigitsValue(o.value) else 0
  }

  /** The position, in seconds, a well-formed offset stands for, plus the lag. */
  function ExpectedSeconds(p: OffsetParts): nat
    requires ValidParts(p)
  {
    VodLag + PartValue(p.hours) * 60 * 60 + PartValue(p.minutes) * 60 + PartValue(p.seconds)
  }

  /** A marker never occurs in a part with another marker. */
  lemma NoMarker(o: Option<string>, marker: char, c: char)
    requires PartValid(o) && c != marker && !IsDigit(c)
    ensures c !in Part(o, marker)
  {
    if o.Some? {
      assert Part(o, marker) == o.value + [marker];
    }
  }

  /** Taking the leading part `d` off `Part(d, c) + rest` with `Split(c)[0]`
      and `Replace(d + c, "")`, when `rest` holds no `c`. */
  lemma {:induction false} StripPart(d: Option<string>, c: char, rest: string)
    requires PartValid(d) && !IsDigit(c) && c !in rest
    ensures c in Part(d, c) + rest <==> d.Some?
    ensures d.Some? ==> Before(Part(d, c) + rest, c) == d.value
    ensures d.Some? ==> RemoveAll(Part(d, c) + rest, d.value + [c]) == rest
  {
    var s := Part(d, c) + rest;
    if d.Some? {
      var v := d.value;
      assert s == v + [c] + rest;
      assert s[|v|] == c;
      var b := Before(s, c);
      assert b == s[..|v|] == v;
      var p := v + [c];
      assert s[..|p|] == p;
      assert s[|p|..] == rest;
      assert c in p by { assert p[|v|] == c; }
      RemoveAllAbsent(rest, p, c);
    } else {
      assert s == rest;
    }
  }

  /** The three steps of the decomposition, on a well-formed offset. */
  lemma {:induction false} HoursStep(p: OffsetParts)
    requires ValidParts(p)
    ensures 'h' in Render(p) <==> p.hours.Some?
    ensures p.hours.Some? ==> Before(Render(p), 'h') == p.hours.value
    ensures p.hours.Some? ==> RemoveAll(Render(p), p.hours.value + "h") == Render(p.(hours := None))
  {
    var rest := Part(p.minutes, 'm') + Part(p.seconds, 's');
    NoMarker(p.minutes, 'm', 'h');
    NoMarker(p.seconds, 's', 'h');
    assert Render(p) == Part(p.hours, 'h') + rest;
    assert Render(p.(hours := None)) == rest;
    StripPart(p.hours, 'h', rest);
  }

  lemma {:induction false} MinutesStep(p: OffsetParts)
    requires ValidParts(p) && p.hours.None?
    ensures 'm' in Render(p) <==> p.minutes.Some?
    ensures p.minutes.Some? ==> Before(Render(p), 'm') == p.minutes.value
    ensures p.minutes.Some? ==> RemoveAll(Render(p), p.minutes.value + "m") == Render(p.(minutes := None))
  {
    var rest := Part(p.seconds, 's');
    NoMarker(p.seconds, 's', 'm');
    assert Render(p) == Part(p.minutes, 'm') + rest;
    assert Render(p.(minutes := None)) == rest;
    StripPart(p.minutes, 'm', rest);
  }

  lemma {:induction false} SecondsStep(p: OffsetParts)
    requires ValidParts(p) && p.hours.None? && p.minutes.None?
    ensures 's' in Render(p) <==> p.seconds.Some?
    ensures p.seconds.Some? ==> Before(Render(p), 's') == p.seconds.value
  {
    assert Render(p) == Part(p.seconds, 's') + "";
    StripPart(p.seconds, 's', "");
  }

  /** Every decomposition of a well-formed offset stands for the same time. */
  lemma OneReading(p: OffsetParts)
    requires ValidParts(p)
    ensures forall q :: ValidParts(q) && Render(q) == Render(p) ==> ExpectedSeconds(q) == ExpectedSeconds(p)
  {
    forall q | ValidParts(q) && Render(q) == Render(p) ensures ExpectedSeconds(q) == ExpectedSeconds(p) {
      RenderInjective(p, q);
    }
  }

  /** What the hours step of `OffsetSeconds` reads off a well-formed offset:
      the hours' value (zero when absent) and the offset without them. */
  lemma HoursPhase(p: OffsetParts)
    requires ValidParts(p)
    ensures 'h' in Render(p) ==> ParseInt(Before(Render(p), 'h')) == Some(PartValue(p.hours))
                                 && RemoveAll(Render(p), Before(Render(p), 'h') + "h") == Render(p.(hours := None))
    ensures 'h' !in Render(p) ==> PartValue(p.hours) == 0 && Render(p) == Render(p.(hours := None))
  {
    HoursStep(p);
    if p.hours.None? {
      assert p.(hours := None) == p;
    }
  }

  lemma MinutesPhase(p: OffsetParts)
    requires ValidParts(p) && p.hours.None?
    ensures 'm' in Render(p) ==> ParseInt(Before(Render(p), 'm')) == Some(PartValue(p.minutes))
                                 && RemoveAll(Render(p), Before(Render(p), 'm') + "m") == Render(p.(minutes := None))
    ensures 'm' !in Render(p) ==> PartValue(p.minutes) == 0 && Render(p) == Render(p.(minutes := None))
  {
    MinutesStep(p);
    if p.minutes.None? {
      assert p.(minutes := None) == p;
    }
  }

  lemma SecondsPhase(p: OffsetParts)
    requires ValidParts(p) && p.hours.None? && p.minutes.None?
    ensures 's' in Render(p) ==> ParseInt(Before(Render(p), 's')) == Some(PartValue(p.seconds))
    ensures 's' !in Render(p) ==> PartValue(p.seconds) == 0
  {
    SecondsStep(p);
  }

  /** A well-formed offset has one decomposition only. */
  lemma {:induction false} RenderInjective(p: OffsetParts, q: OffsetParts)
    requires ValidParts(p) && ValidParts(q) && Render(p) == Render(q)
    ensures p == q
  {
    HoursStep(p);
    HoursStep(q);
    var p1, q1 := p.(hours := None), q.(hours := None);
    assert p.hours == q.hours;
    assert Render(p1) == Render(q1) by {
      if p.hours.None? {
        assert p1 == p && q1 == q;
      }
    }
    MinutesStep(p1);
    MinutesStep(q1);
    var p2, q2 := p1.(minutes := None), q1.(minutes := None);
    assert p.minutes == q.minutes;
    assert Render(p2) == Render(q2) by {
      if p.minutes.None? {
        assert p2 == p1 && q2 == q1;
      }
    }
    SecondsStep(p2);
    SecondsStep(q2);
  }

  /** The offset arithmetic of `GetClipChatAsync`: starting from the lag,
      the hours before the first 'h' are added and that prefix removed, then
      the minutes before the first 'm', then the seconds before the first 's'.
      A part that does not parse throws. */
  method OffsetSeconds(offsetTime: string) returns (r: Result<int, Error>)
    ensures 'h' !in offsetTime && 'm' !in offsetTime && 's' !in offsetTime ==> r == Success(VodLag)
    ensures forall p :: ValidParts(p) && Render(p) == offsetTime ==> r == Success(ExpectedSeconds(p))
    ensures r.Success? ==> r.value >= VodLag
  {
    ghost var wellFormed := exists p :: ValidParts(p) && Render(p) == offsetTime;
    ghost var parts := OffsetParts(None, None, None);
    if wellFormed {
      parts :| ValidParts(parts) && Render(parts) == offsetTime;
      HoursPhase(parts);
    }
    var offsetSeconds := VodLag;
    var rest := offsetTime;
    if 'h' in rest {
      var head := Before(rest, 'h');
      var n := ParseInt(head);
      if n.None? {
        assert !wellFormed;
        return Failure(Format);
      }
      offsetSeconds := offsetSeconds + n.value * 60 * 60;
      rest := RemoveAll(rest, head + "h");
    }
    ghost var afterHours := parts.(hours := None);
    ghost var hours: int := PartValue(parts.hours);
    assert wellFormed ==> offsetSeconds == VodLag + hours * 60 * 60 && rest == Render(afterHours);
    if wellFormed {
      MinutesPhase(afterHours);
    }
    if 'm' in rest {
      var head := Before(rest, 'm');
      var n := ParseInt(head);
      if n.None? {
        assert !wellFormed;
        return Failure(Format);
      }
      offsetSeconds := offsetSeconds + n.value * 60;
      rest := RemoveAll(rest, head + "m");
    }
    ghost var afterMinutes := afterHours.(minutes := None);
    ghost var minutes: int := PartValue(parts.minutes);
    assert wellFormed ==> offsetSeconds == VodLag + hours * 60 * 60 + minutes * 60 && rest == Render(afterMinutes);
    if wellFormed {
      SecondsPhase(afterMinutes);
    }
    if 's' in rest {
      var n := ParseInt(Before(rest, 's'));
      if n.None? {
        assert !wellFormed;
        return Failure(Format);
      }
      offsetSeconds := offsetSeconds + n.value;
    }
    ghost var seconds: int := PartValue(parts.seconds);
    assert wellFormed ==> offsetSeconds == VodLag + hours * 60 * 60 + minutes * 60 + seconds;
    r := Success(offsetSeconds);
    if wellFormed {
      assert offsetSeconds == ExpectedSeconds(parts);
      OneReading(parts);
    }
  }

  /** A C# `int` result: the value wrapped into the 32-bit two's complement range. */
  function Int32(x: int): (r: int)
    ensures -0x8000_0000 <= r < 0x8000_0000
    ensures -0x8000_0000 <= x < 0x8000_0000 ==> r == x
  {
    (x + 0x8000_0000) % 0x1_0000_0000 - 0x8000_0000
  }

  /** The hours term as the source computes it: `int.Parse(...) * 60 * 60`
      is evaluated in `int`, each product wrapping, before it is added to the
      `long` total. */
  function HoursTermAsWritten(hours: int): int {
    Int32(Int32(hours * 60) * 60)
  }

  /** An hour count that `int.Parse` accepts turns the as-written hours term
      negative, while the offset it spells stands for a positive time. */
  lemma HoursTermWraps()
    ensures Int32(596524) == 596524
    ensures HoursTermAsWritten(596524) == 596524 * 3600 - 0x1_0000_0000 < 0
    ensures ExpectedSeconds(OffsetParts(Some("596524"), None, None)) == VodLag + 596524 * 3600
  {
    assert DigitsValue("596524") == 596524 by {
      assert "596524"[..5] == "59652" && "59652"[..4] == "5965" && "5965"[..3] == "596";
      assert "596"[..2] == "59" && "59"[..1] == "5" && "5"[..0] == "";
    }
  }

  /** The clip record `GetClipChatAsync` looks up: the VOD id, and the
      offset text that follows '=' in the VOD URL. */
  datatype ClipVod = ClipVod(vodId: string, offsetTime: string)

  const RechatResource := "https://rechat.twitch.tv/rechat-messages"

  /** `GetClipChatAsync` after its clip lookup: no clip gives no query;
      otherwise the rechat query for the VOD at the clip's offset. */
  method GetClipChat(clip: Option<ClipVod>) returns (r: Result<Option<Query>, Error>)
    ensures clip.None? ==> r == Success(None)
    ensures clip.Some? ==> forall p :: ValidParts(p) && Render(p) == clip.value.offsetTime ==>
      r == Success(Some(Query(RechatResource, [Param("video_id", "v" + clip.value.vodId),
                                               Param("offset_seconds", IntString(ExpectedSeconds(p)))])))
    ensures r.Success? && r.value.Some? ==>
      |r.value.value.params| == 2 && r.value.value.params[0] == Param("video_id", "v" + clip.value.vodId)
      && r.value.value.params[1].key == "offset_seconds"
      && exists n :: n >= VodLag && ParseInt(r.value.value.params[1].value) == Some(n)
  {
    if clip.None? {
      return Success(None);
    }
    var vodId := "v" + clip.value.vodId;
    var offsetSeconds := OffsetSeconds(clip.value.offsetTime);
    if offsetSeconds.Failure? {
      return Failure(offsetSeconds.error);
    }
    var getParams := [Param("video_id", vodId), Param("offset_seconds", IntString(offsetSeconds.value))];
    IntStringRoundTrip(offsetSeconds.value);
    r := Success(Some(Query(RechatResource, getParams)));
  }

  // ===== Comments ===========================================================

  /** One page of a video's comments; `next` is the cursor of the page after
      it, null on the last page. */
  datatype CommentsPage = CommentsPage(comments: seq<string>, next: Option<string>)

  const VideoIdInvalid := "The video id is not valid. It is not allowed to be null, empty or filled with whitespaces."

  /** The optional query parameters of a comments page, in order. */
  const CommentsKeys := ["content_offset_seconds", "cursor"]

  function CommentsUrl(videoId: string): string {
    "https://api.twitch.tv/kraken/videos/" + videoId + "/comments"
  }

  /** The offset parameter's text, when the offset has a value. */
  function OffsetText(o: Option<int>): (r: Option<string>)
    ensures r.Some? <==> o.Some?
    ensures r.Some? && o.value >= 0 ==> ParseInt(r.value) == o
  {
    if o.Some? then IntStringRoundTrip(o.value); Some(IntString(o.value)) else None
  }

  /** The optional parameters of a comments page, as sent. */
  function CommentsParams(contentOffsetSeconds: Option<int>, cursor: Option<string>): seq<Param> {
    Optional("content_offset_seconds", OffsetText(contentOffsetSeconds)) + Optional("cursor", cursor)
  }

  /** The parameters of a comments page carry the offset's text and the
      cursor, in that order, each exactly when it has a value. */
  lemma CommentsParamsCarried(contentOffsetSeconds: Option<int>, cursor: Option<string>)
    ensures Carries(CommentsParams(contentOffsetSeconds, cursor), CommentsKeys, [OffsetText(contentOffsetSeconds), cursor])
  {
    var values := [OffsetText(contentOffsetSeconds), cursor];
    assert Distinct(CommentsKeys);
    CarriesTwo(CommentsKeys, values);
  }

  /** `GetCommentsPageAsync`: a null, empty or white-space video id throws;
      otherwise `content_offset_seconds` is sent when the offset has a value
      and `cursor` when the cursor is not null, in that order. */
  method GetCommentsPage(videoId: Option<string>, contentOffsetSeconds: Option<int>, cursor: Option<string>)
    returns (r: Result<Query, Error>)
    ensures r.Failure? <==> IsNullOrWhiteSpace(videoId)
    ensures r.Failure? ==> r.error == BadParameter(VideoIdInvalid)
    ensures r.Success? ==> r.value.url == CommentsUrl(videoId.value)
    ensures r.Success? ==> r.value.params == CommentsParams(contentOffsetSeconds, cursor)
  {
    var getParams: seq<Param> := [];
    if IsNullOrWhiteSpace(videoId) {
      return Failure(BadParameter(VideoIdInvalid));
    }
    if contentOffsetSeconds.Some? {
      getParams := getParams + [Param("content_offset_seconds", IntString(contentOffsetSeconds.value))];
    }
    if cursor.Some? {
      getParams := getParams + [Param("cursor", cursor.value)];
    }
    r := Success(Query(CommentsUrl(videoId.value), getParams));
  }

  /** What `GetAllCommentsAsync` fetched: the pages, and the query sent for
      each of them. */
  datatype Paging = Paging(pages: seq<CommentsPage>, queries: seq<Query>)

  /** `pages` were fetched in turn: every page but the last has a `next`
      cursor, the first query has no parameter and each later query sends the
      previous page's cursor. */
  predicate CursorChain(url: string, pages: seq<CommentsPage>, queries: seq<Query>) {
    && 1 <= |pages| == |queries|
    && (forall i :: 0 <= i < |pages| - 1 ==> pages[i].next.Some?)
    && queries[0] == Query(url, [])
    && (forall i :: 0 < i < |pages| ==> queries[i] == Query(url, [Param("cursor", pages[i - 1].next.value)]))
  }

  /** Fetching one more page with the last page's cursor extends the chain. */
  lemma CursorChainExtend(url: string, pages: seq<CommentsPage>, queries: seq<Query>, page: CommentsPage)
    requires CursorChain(url, pages, queries) && pages[|pages| - 1].next.Some?
    ensures CursorChain(url, pages + [page],
                        queries + [Query(url, [Param("cursor", pages[|pages| - 1].next.value)])])
  {
  }

  /** `GetAllCommentsAsync`: fetches the first page without a cursor, then
      each following page with the previous page's `next`, until a page has
      none. `responses` are the pages the endpoint returns, in the order the
      fetches are made; the endpoint is taken to end the chain. */
  method GetAllComments(videoId: Option<string>, responses: seq<CommentsPage>) returns (r: Result<Paging, Error>)
    requires exists k :: 0 <= k < |responses| && responses[k].next.None?
    ensures r.Failure? <==> IsNullOrWhiteSpace(videoId)
    ensures r.Failure? ==> r.error == BadParameter(VideoIdInvalid)
    ensures r.Success? ==> |r.value.pages| <= |responses| && r.value.pages == responses[..|r.value.pages|]
    ensures r.Success? ==> CursorChain(CommentsUrl(videoId.value), r.value.pages, r.value.queries)
    ensures r.Success? ==> r.value.pages[|r.value.pages| - 1].next.None?
  {
    var first := GetCommentsPage(videoId, None, None);
    if first.Failure? {
      return Failure(first.error);
    }
    var url := CommentsUrl(videoId.value);
    assert first.value == Query(url, []) by {
      assert CommentsParams(None, None) == [];
    }
    ghost var last :| 0 <= last < |responses| && responses[last].next.None?;
    var pages := [responses[0]];
    var queries := [first.value];
    while pages[|pages| - 1].next.Some?
      invariant |pages| <= last + 1 && pages == responses[..|pages|]
      invariant CursorChain(url, pages, queries)
      decreases last - |pages|
    {
      var cursor := pages[|pages| - 1].next;
      var page := GetCommentsPage(videoId, None, cursor);
      assert page.value == Query(url, [Param("cursor", cursor.value)]) by {
        assert CommentsParams(None, cursor) == [Param("cursor", cursor.value)];
      }
      CursorChainExtend(url, pages, queries, responses[|pages|]);
      queries := queries + [page.value];
      pages := pages + [responses[|pages|]];
    }
    r := Success(Paging(pages, queries));
  }

  // ===== Chatters ===========================================================

  /** `UserType`, as far as chatters go. */
  datatype UserType = Viewer | Moderator | GlobalModerator | Admin | Staff | Broadcaster

  /** `ChatterFormatted`: a username and the role it is listed under. */
  datatype Chatter = Chatter(username: string, userType: UserType)

  /** The role groups of a chatters response. */
  datatype ChattersGroups = ChattersGroups(staff: seq<string>, admins: seq<string>, globalMods: seq<string>,
                                           moderators: seq<string>, viewers: seq<string>)

  /** Every username of the response, group after group. */
  function AllNames(g: ChattersGroups): seq<string> {
    g.staff + g.admins + g.globalMods + g.moderators + g.viewers
  }

  /** The role of the group position `i` of `AllNames(g)` falls in. */
  function GroupTypeAt(g: ChattersGroups, i: int): UserType {
    if i < |g.staff| then Staff
    else if i < |g.staff| + |g.admins| then Admin
    else if i < |g.staff| + |g.admins| + |g.globalMods| then GlobalModerator
    else if i < |g.staff| + |g.admins| + |g.globalMods| + |g.moderators| then Moderator
    else Viewer
  }

  /** `c` lists the first `|c|` usernames of the response, each under its
      group's role. */
  predicate TaggedPrefix(g: ChattersGroups, c: seq<Chatter>) {
    |c| <= |AllNames(g)| && forall i :: 0 <= i < |c| ==> c[i] == Chatter(AllNames(g)[i], GroupTypeAt(g, i))
  }

  /** `names.Select(n => new ChatterFormatted(n, t))`. */
  function Tag(names: seq<string>, t: UserType): (r: seq<Chatter>)
    ensures |r| == |names| && forall j :: 0 <= j < |names| ==> r[j] == Chatter(names[j], t)
  {
    seq(|names|, j requires 0 <= j < |names| => Chatter(names[j], t))
  }

  /** The list built from a response: each group under its role, staff
      first and viewers last. */
  function Tagged(g: ChattersGroups): seq<Chatter> {
    Tag(g.staff, Staff) + Tag(g.admins, Admin) + Tag(g.globalMods, GlobalModerator)
    + Tag(g.moderators, Moderator) + Tag(g.viewers, Viewer)
  }

  /** Entry `i` of the built list is the `i`-th username of the response,
      under the role of the group it falls in. */
  lemma TaggedRoles(g: ChattersGroups)
    ensures TaggedPrefix(g, Tagged(g)) && |Tagged(g)| == |AllNames(g)|
  {
    var c, names := Tagged(g), AllNames(g);
    var a1 := |g.staff|;
    var a2 := a1 + |g.admins|;
    var a3 := a2 + |g.globalMods|;
    var a4 := a3 + |g.moderators|;
    forall i | 0 <= i < |c| ensures c[i] == Chatter(names[i], GroupTypeAt(g, i)) {
      if i < a1 {
        assert c[i] == Chatter(g.staff[i], Staff) && names[i] == g.staff[i];
      } else if i < a2 {
        assert c[i] == Chatter(g.admins[i - a1], Admin) && names[i] == g.admins[i - a1];
      } else if i < a3 {
        assert c[i] == Chatter(g.globalMods[i - a2], GlobalModerator) && names[i] == g.globalMods[i - a2];
      } else if i < a4 {
        assert c[i] == Chatter(g.moderators[i - a3], Moderator) && names[i] == g.moderators[i - a3];
      } else {
        assert c[i] == Chatter(g.viewers[i - a4], Viewer) && names[i] == g.viewers[i - a4];
      }
    }
  }

  /** `AddRange(names.Select(n => new ChatterFormatted(n, t)))`. */
  method AddRange(chatters: seq<Chatter>, names: seq<string>, t: UserType) returns (r: seq<Chatter>)
    ensures r == chatters + Tag(names, t)
  {
    r := chatters;
    for j := 0 to |names|
      invariant r == chatters + Tag(names, t)[..j]
    {
      assert Tag(names, t)[..j + 1] == Tag(names, t)[..j] + [Chatter(names[j], t)];
      r := r + [Chatter(names[j], t)];
    }
    assert Tag(names, t)[..|names|] == Tag(names, t);
  }

  /** The list `GetChattersAsync` builds from its response: staff, admins,
      global moderators, moderators and viewers, in that order, each under
      its group's role. */
  method GroupedChatters(g: ChattersGroups) returns (chatters: seq<Chatter>)
    ensures chatters == Tagged(g)
    ensures |chatters| == |AllNames(g)| && TaggedPrefix(g, chatters)
  {
    chatters := AddRange([], g.staff, Staff);
    chatters := AddRange(chatters, g.admins, Admin);
    chatters := AddRange(chatters, g.globalMods, GlobalModerator);
    chatters := AddRange(chatters, g.moderators, Moderator);
    chatters := AddRange(chatters, g.viewers, Viewer);
    assert [] + Tag(g.staff, Staff) == Tag(g.staff, Staff);
    TaggedRoles(g);
  }

  /** `GetChattersAsync` after its fetch: the grouped list, in which every
      entry whose username equals the channel name up to case is relabelled
      as the broadcaster. */
  method GetChatters(g: ChattersGroups, channelName: string) returns (chatters: seq<Chatter>)
    ensures |chatters| == |g.staff| + |g.admins| + |g.globalMods| + |g.moderators| + |g.viewers|
    ensures forall i :: 0 <= i < |chatters| ==> chatters[i].username == AllNames(g)[i]
    ensures forall i :: 0 <= i < |chatters| ==>
      chatters[i].userType == if EqualsIgnoreCase(AllNames(g)[i], channelName) then Broadcaster else GroupTypeAt(g, i)
  {
    chatters := GroupedChatters(g);
    ghost var names := AllNames(g);
    for i := 0 to |chatters|
      invariant |chatters| == |names|
      invariant forall j :: 0 <= j < |chatters| ==> chatters[j].username == names[j]
      invariant forall j :: 0 <= j < i ==>
        chatters[j].userType == if EqualsIgnoreCase(names[j], channelName) then Broadcaster else GroupTypeAt(g, j)
      invariant forall j :: i <= j < |chatters| ==> chatters[j].userType == GroupTypeAt(g, j)
    {
      if EqualsIgnoreCase(chatters[i].username, channelName) {
        chatters := chatters[i := chatters[i].(userType := Broadcaster)];
      }
    }
  }

  // ===== Username availability =============================================

  const UnexpectedResponse := "Unexpected response from resource. Expecting response code 200 or 204, received: "

  /** `IsUsernameAvailableAsync` on the status code of its HEAD probe: 200
      means the name is taken, 204 that it is free, anything else throws. */
  function IsUsernameAvailable(status: int): (r: Result<bool, Error>)
    ensures r.Success? <==> status == StatusOk || status == StatusNoContent
    ensures r.Success? ==> (r.value <==> status == StatusNoContent)
    ensures r.Failure? ==> r.error == BadResource(UnexpectedResponse + IntString(status))
  {
    match status
    case 200 => Success(false)
    case 204 => Success(true)
    case _ => Failure(BadResource(UnexpectedResponse + IntString(status)))
  }
}
