/**
 A model of the mention pill helper of a Matrix bot SDK: a mention of a user
 rendered as an HTML anchor and as a plain-text label, and the fault-tolerant
 lookup chain that chooses the label.

 The remote calls of the Matrix client, the permalink formatter and the logger
 are not modelled as code: the client is a pair of total functions giving the
 outcome of each remote call, the formatter is a function parameter that may
 fail, and the calls made and the warnings logged are returned as values.
 */
module MentionPills {

  datatype Option<+T> = None | Some(value: T)

  /** An error raised by a collaborator (a remote call, the permalink
      formatter), or the TypeError of reading a property of `null`. */
  datatype Error = Raised(description: string) | NullDereference

  datatype Result<+T> = Ok(value: T) | Err(error: Error)

  /** A profile record as returned by the homeserver; only `displayname` is read. */
  datatype Profile = Profile(displayname: Option<string>)

  /** What one awaited remote call produces: it throws, it resolves to nothing
      (`null`/`undefined`), or it resolves to a profile object. */
  datatype Outcome = Throws(error: Error) | Absent | Found(profile: Profile)

  /** The two client operations the lookup uses, as the outcomes they would
      produce: `getRoomStateEvent(roomId, type, stateKey)` and
      `getUserProfile(userId)`. */
  datatype Client = Client(
    getRoomStateEvent: (string, string, string) -> Outcome,
    getUserProfile: string -> Outcome)

  /** A call made to a collaborator, in the order it is made. */
  datatype Call =
    | PermalinkForUser(userId: string)
    | GetRoomStateEvent(roomId: string, eventType: string, stateKey: string)
    | GetUserProfile(userId: string)

  /** One warning passed to the logger: a module tag, a message and the error. */
  datatype Warning = Warning(tag: string, message: string, error: Error)

  const MemberEventType := "m.room.member"
  const LogTag := "MentionPill"
  const LogMessage := "Error getting profile"

  const AnchorOpen := "<a href=\""
  const AnchorMiddle := "\">"
  const AnchorClose := "</a>"

  /** A mention: a permalink to the entity and the label shown for it. Both
      are fixed when the mention is built. */
  datatype MentionPill = MentionPill(entityPermalink: string, displayName: string) {

    /** The HTML component: an anchor to the permalink whose inner text is the
        label, neither part escaped. */
    function Html(): (h: string)
      ensures |h| == |AnchorOpen| + |entityPermalink| + |AnchorMiddle| + |displayName| + |AnchorClose|
      ensures h[..|AnchorOpen|] == AnchorOpen
      ensures h[|AnchorOpen|..|AnchorOpen| + |entityPermalink|] == entityPermalink
      ensures h[|AnchorOpen| + |entityPermalink|..|AnchorOpen| + |entityPermalink| + |AnchorMiddle|] == AnchorMiddle
      ensures h[|h| - |AnchorClose| - |displayName|..|h| - |AnchorClose|] == displayName
      ensures h[|h| - |AnchorClose|..] == AnchorClose
    {
      var h := AnchorOpen + entityPermalink + AnchorMiddle + displayName + AnchorClose;
      assert h == (AnchorOpen + entityPermalink + AnchorMiddle) + displayName + AnchorClose;
      h
    }

    /** The plain-text component: the very label the anchor shows. */
    function Text(): (t: string)
      ensures t == Html()[|AnchorOpen| + |entityPermalink| + |AnchorMiddle|..|Html()| - |AnchorClose|]
    {
      displayName
    }
  }

  // ---------------------------------------------------------------------------
  // The HTML anchor read back: the inverse of Html

  datatype Anchor = Anchor(href: string, content: string)

  /** The index of the first double quote in `s`, or `|s|` when there is none. */
  function IndexOfQuote(s: string): (i: nat)
    ensures i <= |s|
    ensures i < |s| ==> s[i] == '"'
    ensures forall j :: 0 <= j < i ==> s[j] != '"'
  {
    if s == [] then 0
    else if s[0] == '"' then 0
    else 1 + IndexOfQuote(s[1..])
  }

  /** Splits the inside of an anchor, `HREF">LABEL`, at its first double
      quote, which must begin the `">` that closes the start tag. */
  function ParseAnchorBody(body: string): (a: Option<Anchor>)
    ensures a.Some? ==> '"' !in a.value.href
    ensures a.Some? ==> body == a.value.href + AnchorMiddle + a.value.content
  {
    var q := IndexOfQuote(body);
    if q + |AnchorMiddle| <= |body| && body[q..q + |AnchorMiddle|] == AnchorMiddle then
      ThreeParts(body, q, q + |AnchorMiddle|);
      Some(Anchor(body[..q], body[q + |AnchorMiddle|..]))
    else
      None
  }

  /** Reads an anchor `<a href="HREF">LABEL</a>`: the href runs to the first
      double quote, the label from the `">` after it to the closing tag. */
  function ParseAnchor(h: string): (a: Option<Anchor>)
    ensures a.Some? ==> '"' !in a.value.href
    ensures a.Some? ==> h == AnchorOpen + a.value.href + AnchorMiddle + a.value.content + AnchorClose
  {
    if |h| < |AnchorOpen| + |AnchorClose| || h[..|AnchorOpen|] != AnchorOpen || h[|h| - |AnchorClose|..] != AnchorClose then
      None
    else
      var body := h[|AnchorOpen|..|h| - |AnchorClose|];
      ThreeParts(h, |AnchorOpen|, |h| - |AnchorClose|);
      var a := ParseAnchorBody(body);
      if a.Some? then
        assert AnchorOpen + body + AnchorClose == AnchorOpen + a.value.href + AnchorMiddle + a.value.content + AnchorClose;
        a
      else
        None
  }

  /** Cutting a sequence at two points and joining the pieces gives it back. */
  lemma ThreeParts(s: string, i: nat, j: nat)
    requires i <= j <= |s|
    ensures s == s[..i] + s[i..j] + s[j..]
  {
    assert s[..i] + s[i..j] == s[..j];
  }

  /** Each of three joined sequences is found back at its own offset. */
  lemma Pieces(a: string, b: string, c: string)
    ensures (a + b + c)[..|a|] == a
    ensures (a + b + c)[|a|..|a| + |b|] == b
    ensures (a + b + c)[|a| + |b|..] == c
  {
    var s := a + b + c;
    assert s == (a + b) + c;
    assert s[..|a| + |b|] == a + b;
  }

  lemma {:induction false} IndexOfQuoteAfterPrefix(prefix: string, rest: string)
    requires '"' !in prefix
    requires |rest| > 0 && rest[0] == '"'
    ensures IndexOfQuote(prefix + rest) == |prefix|
  {
    var s := prefix + rest;
    var i := IndexOfQuote(s);
    assert s[|prefix|] == '"';
  }

  /** The inside of an anchor splits back into its href and label when the
      href holds no double quote. */
  lemma ParseAnchorBodyRoundTrip(href: string, name: string)
    requires '"' !in href
    ensures ParseAnchorBody(href + AnchorMiddle + name) == Some(Anchor(href, name))
  {
    Pieces(href, AnchorMiddle, name);
    assert href + AnchorMiddle + name == href + (AnchorMiddle + name);
    IndexOfQuoteAfterPrefix(href, AnchorMiddle + name);
  }

  /** The anchor gives back both fields unchanged, so `text` is exactly the
      label of `html`, provided the permalink holds no double quote (nothing
      is escaped, so a quote in the permalink would end the href early). */
  lemma AnchorRoundTrip(p: MentionPill)
    requires '"' !in p.entityPermalink
    ensures ParseAnchor(p.Html()) == Some(Anchor(p.entityPermalink, p.Text()))
  {
    var body := p.entityPermalink + AnchorMiddle + p.displayName;
    assert p.Html() == AnchorOpen + body + AnchorClose;
    Pieces(AnchorOpen, body, AnchorClose);
    ParseAnchorBodyRoundTrip(p.entityPermalink, p.displayName);
  }

  // ---------------------------------------------------------------------------
  // The display-name lookup, stated declaratively

  /** JavaScript truthiness of an optional string: present and non-empty. */
  predicate Truthy(s: Option<string>) {
    s.Some? && s.value != ""
  }

  /** A profile whose `displayname` is truthy. */
  predicate Named(p: Profile) {
    Truthy(p.displayname)
  }

  /** The room-scoped lookup is made exactly when a client is given and the
      room ID is truthy. */
  predicate ScopedAttempted(inRoomId: Option<string>, client: Option<Client>) {
    client.Some? && Truthy(inRoomId)
  }

  /** The outcome of the room-scoped member lookup. */
  function ScopedOutcome(userId: string, inRoomId: Option<string>, client: Option<Client>): Outcome
    requires ScopedAttempted(inRoomId, client)
  {
    client.value.getRoomStateEvent(inRoomId.value, MemberEventType, userId)
  }

  /** The global lookup is made when a client is given and the scoped lookup
      neither was made nor threw nor gave a profile. */
  predicate GlobalAttempted(userId: string, inRoomId: Option<string>, client: Option<Client>) {
    client.Some? && (!ScopedAttempted(inRoomId, client) || ScopedOutcome(userId, inRoomId, client).Absent?)
  }

  /** The outcome of the global profile lookup. */
  function GlobalOutcome(userId: string, client: Option<Client>): Outcome
    requires client.Some?
  {
    client.value.getUserProfile(userId)
  }

  /** The remote calls made, in order. */
  function LookupCalls(userId: string, inRoomId: Option<string>, client: Option<Client>): seq<Call> {
    (if ScopedAttempted(inRoomId, client) then [GetRoomStateEvent(inRoomId.value, MemberEventType, userId)] else [])
    + (if GlobalAttempted(userId, inRoomId, client) then [GetUserProfile(userId)] else [])
  }

  /** The profile whose `displayname` is read: the scoped one when obtained,
      otherwise the global one when the global lookup gave one. */
  function ObtainedProfile(userId: string, inRoomId: Option<string>, client: Option<Client>): Option<Profile> {
    if ScopedAttempted(inRoomId, client) && ScopedOutcome(userId, inRoomId, client).Found? then
      Some(ScopedOutcome(userId, inRoomId, client).profile)
    else if GlobalAttempted(userId, inRoomId, client) && GlobalOutcome(userId, client).Found? then
      Some(GlobalOutcome(userId, client).profile)
    else
      None
  }

  /** The error the lookup catches, if any: one thrown by a lookup that was
      made, or the null dereference of reading `displayname` from an absent
      global profile. */
  function CaughtError(userId: string, inRoomId: Option<string>, client: Option<Client>): Option<Error> {
    if ScopedAttempted(inRoomId, client) && ScopedOutcome(userId, inRoomId, client).Throws? then
      Some(ScopedOutcome(userId, inRoomId, client).error)
    else if GlobalAttempted(userId, inRoomId, client) then
      match GlobalOutcome(userId, client)
      case Throws(e) => Some(e)
      case Absent => Some(NullDereference)
      case Found(_) => None
    else
      None
  }

  /** The label of the mention: the obtained profile's name when truthy, the
      user ID otherwise. */
  function DisplayName(userId: string, inRoomId: Option<string>, client: Option<Client>): string {
    var p := ObtainedProfile(userId, inRoomId, client);
    if p.Some? && Named(p.value) then p.value.displayname.value else userId
  }

  /** The warnings logged: one for a caught error, none otherwise. */
  function ExpectedWarnings(userId: string, inRoomId: Option<string>, client: Option<Client>): seq<Warning> {
    match CaughtError(userId, inRoomId, client)
    case Some(e) => [Warning(LogTag, LogMessage, e)]
    case None => []
  }

  // ---------------------------------------------------------------------------
  // The factory

  /** Builds the mention of `userId`, optionally in room `inRoomId`, using
      `client` for a nicer label when one is given. The permalink comes first
      and its failure is not caught; every failure of the lookups is caught,
      logged once, and leaves the user ID as the label. */
  method ForUser(userId: string, inRoomId: Option<string>, client: Option<Client>, permalinkForUser: string -> Result<string>)
    returns (pill: Result<MentionPill>, calls: seq<Call>, warnings: seq<Warning>)
    ensures permalinkForUser(userId).Err? ==>
      && pill == Err(permalinkForUser(userId).error)
      && calls == [PermalinkForUser(userId)]
      && warnings == []
    ensures permalinkForUser(userId).Ok? ==>
      && pill == Ok(MentionPill(permalinkForUser(userId).value, DisplayName(userId, inRoomId, client)))
      && calls == [PermalinkForUser(userId)] + LookupCalls(userId, inRoomId, client)
      && warnings == ExpectedWarnings(userId, inRoomId, client)
  {
    calls := [PermalinkForUser(userId)];
    warnings := [];
    var permalink := permalinkForUser(userId);
    if permalink.Err? {
      pill := Err(permalink.error);
      return;
    }

    var displayName := userId;
    var thrown: Option<Error> := None;  // the error that left the try block
    if client.Some? {
      var profile: Option<Profile> := None;
      if Truthy(inRoomId) {
        calls := calls + [GetRoomStateEvent(inRoomId.value, MemberEventType, userId)];
        match client.value.getRoomStateEvent(inRoomId.value, MemberEventType, userId) {
          case Throws(e) => thrown := Some(e);
          case Absent =>
          case Found(p) => profile := Some(p);
        }
      }
      if thrown.None? && profile.None? {
        calls := calls + [GetUserProfile(userId)];
        match client.value.getUserProfile(userId) {
          case Throws(e) => thrown := Some(e);
          case Absent =>
          case Found(p) => profile := Some(p);
        }
      }
      if thrown.None? {
        match profile {
          case None => thrown := Some(NullDereference);
          case Some(p) =>
            if Named(p) {
              displayName := p.displayname.value;
            }
        }
      }
    }
    if thrown.Some? {
      warnings := [Warning(LogTag, LogMessage, thrown.value)];
    }
    pill := Ok(MentionPill(permalink.value, displayName));
  }

  // ---------------------------------------------------------------------------
  // Properties of the lookup

  /** Without a client no remote call is made, nothing is logged, and the
      label is the user ID. */
  lemma NoClientNoLookup(userId: string, inRoomId: Option<string>)
    ensures LookupCalls(userId, inRoomId, None) == []
    ensures ExpectedWarnings(userId, inRoomId, None) == []
    ensures DisplayName(userId, inRoomId, None) == userId
  {
  }

  predicate MakesScopedLookup(calls: seq<Call>) {
    exists i :: 0 <= i < |calls| && calls[i].GetRoomStateEvent?
  }

  predicate MakesGlobalLookup(calls: seq<Call>) {
    exists i :: 0 <= i < |calls| && calls[i].GetUserProfile?
  }

  /** The room-scoped lookup is made iff a client is given and the room ID is
      truthy; it asks for the `m.room.member` state of the user in that room,
      and it comes first. */
  lemma ScopedLookupOnlyInRoom(userId: string, inRoomId: Option<string>, client: Option<Client>)
    ensures MakesScopedLookup(LookupCalls(userId, inRoomId, client)) <==> client.Some? && Truthy(inRoomId)
    ensures client.Some? && Truthy(inRoomId) ==>
      LookupCalls(userId, inRoomId, client)[0] == GetRoomStateEvent(inRoomId.value, MemberEventType, userId)
  {
    var calls := LookupCalls(userId, inRoomId, client);
    if MakesScopedLookup(calls) {
      var i :| 0 <= i < |calls| && calls[i].GetRoomStateEvent?;
    }
    if client.Some? && Truthy(inRoomId) {
      assert calls[0].GetRoomStateEvent?;
    }
  }

  /** The global lookup is made iff a client is given and the scoped lookup
      was not made or resolved to nothing; it asks for the user's profile and
      comes last. */
  lemma GlobalLookupOnlyWithoutScopedProfile(userId: string, inRoomId: Option<string>, client: Option<Client>)
    ensures MakesGlobalLookup(LookupCalls(userId, inRoomId, client)) <==>
      client.Some? && (!Truthy(inRoomId) || client.value.getRoomStateEvent(inRoomId.value, MemberEventType, userId) == Absent)
    ensures MakesGlobalLookup(LookupCalls(userId, inRoomId, client)) ==>
      var calls := LookupCalls(userId, inRoomId, client); calls[|calls| - 1] == GetUserProfile(userId)
  {
    var calls := LookupCalls(userId, inRoomId, client);
    if MakesGlobalLookup(calls) {
      var i :| 0 <= i < |calls| && calls[i].GetUserProfile?;
    }
    if GlobalAttempted(userId, inRoomId, client) {
      assert calls[|calls| - 1].GetUserProfile?;
    }
  }

  /** A scoped profile without a usable name still counts as obtained: the
      global lookup is skipped and the label stays the user ID. */
  lemma NamelessScopedProfileSkipsGlobal(userId: string, roomId: string, c: Client)
    requires roomId != ""
    requires c.getRoomStateEvent(roomId, MemberEventType, userId).Found?
    requires !Named(c.getRoomStateEvent(roomId, MemberEventType, userId).profile)
    ensures LookupCalls(userId, Some(roomId), Some(c)) == [GetRoomStateEvent(roomId, MemberEventType, userId)]
    ensures DisplayName(userId, Some(roomId), Some(c)) == userId
    ensures ExpectedWarnings(userId, Some(roomId), Some(c)) == []
  {
  }

  /** The label is either the user ID or the non-empty `displayname` of a
      profile one of the lookups made returned; a truthy name of the obtained
      profile is always taken. */
  lemma DisplayNameIsUserIdOrObtainedName(userId: string, inRoomId: Option<string>, client: Option<Client>)
    ensures var name := DisplayName(userId, inRoomId, client);
      name == userId ||
      (name != "" &&
       ((ScopedAttempted(inRoomId, client) && ScopedOutcome(userId, inRoomId, client) == Found(Profile(Some(name)))) ||
        (GlobalAttempted(userId, inRoomId, client) && GlobalOutcome(userId, client) == Found(Profile(Some(name))))))
    ensures var p := ObtainedProfile(userId, inRoomId, client);
      p.Some? && Named(p.value) ==> DisplayName(userId, inRoomId, client) == p.value.displayname.value
  {
  }

  /** The label is never empty when the user ID is not. */
  lemma DisplayNameNonEmpty(userId: string, inRoomId: Option<string>, client: Option<Client>)
    requires userId != ""
    ensures DisplayName(userId, inRoomId, client) != ""
  {
  }

  /** With a client, the lookup ends in exactly one of two ways: a profile is
      obtained, or an error is caught. */
  lemma ProfileOrCaughtError(userId: string, inRoomId: Option<string>, client: Option<Client>)
    requires client.Some?
    ensures ObtainedProfile(userId, inRoomId, client).Some? != CaughtError(userId, inRoomId, client).Some?
  {
  }

  /** A caught error is logged exactly once with the component's tag, the
      lookup that raised it is the last call made, and the label is the user
      ID. */
  lemma ErrorIsSwallowed(userId: string, inRoomId: Option<string>, client: Option<Client>)
    requires CaughtError(userId, inRoomId, client).Some?
    ensures ExpectedWarnings(userId, inRoomId, client)
      == [Warning(LogTag, LogMessage, CaughtError(userId, inRoomId, client).value)]
    ensures DisplayName(userId, inRoomId, client) == userId
    ensures var calls := LookupCalls(userId, inRoomId, client);
      |calls| > 0 &&
      (calls[|calls| - 1].GetRoomStateEvent? ==> ScopedOutcome(userId, inRoomId, client).Throws?) &&
      (calls[|calls| - 1].GetUserProfile? ==> !GlobalOutcome(userId, client).Found?)
    ensures ScopedAttempted(inRoomId, client) && ScopedOutcome(userId, inRoomId, client).Throws? ==>
      LookupCalls(userId, inRoomId, client) == [GetRoomStateEvent(inRoomId.value, MemberEventType, userId)]
  {
  }

  /** At most one warning is ever logged, always with the component's tag. */
  lemma AtMostOneWarning(userId: string, inRoomId: Option<string>, client: Option<Client>)
    ensures |ExpectedWarnings(userId, inRoomId, client)| <= 1
    ensures forall w :: w in ExpectedWarnings(userId, inRoomId, client) ==> w.tag == LogTag
  {
  }

  /** A scoped profile named "Alice" gives the label "Alice" and the global
      lookup is never made. */
  lemma ScopedNameWins(userId: string, roomId: string, c: Client)
    requires roomId != ""
    requires c.getRoomStateEvent(roomId, MemberEventType, userId) == Found(Profile(Some("Alice")))
    ensures DisplayName(userId, Some(roomId), Some(c)) == "Alice"
    ensures !MakesGlobalLookup(LookupCalls(userId, Some(roomId), Some(c)))
  {
  }

  /** An absent scoped profile and a global profile named "Bob" give "Bob". */
  lemma GlobalNameWhenScopedAbsent(userId: string, roomId: string, c: Client)
    requires c.getRoomStateEvent(roomId, MemberEventType, userId) == Absent
    requires c.getUserProfile(userId) == Found(Profile(Some("Bob")))
    ensures DisplayName(userId, Some(roomId), Some(c)) == "Bob"
    ensures ExpectedWarnings(userId, Some(roomId), Some(c)) == []
  {
  }
}
