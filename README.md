# MentionPill model

A Dafny model of `MentionPill` from matrix-js-bot-sdk (`src/helpers/MentionPill.ts`).
A mention pill names a Matrix user in a message. It has two renderings: an HTML anchor
(`html`) pointing at the user's permalink, and a plain-text label (`text`). The factory
`forUser` computes the permalink, then makes a best-effort search for a display name. No
lookup is made without a client. With a client, it first asks for the user's
`m.room.member` state in the room when the room ID is non-empty. It then asks for the
user's global profile when that room lookup was skipped or resolved to nothing. Any lookup
error is caught and logged, and the label falls back to the user ID.

Everything is in `mention_pill.dfy`, module `MentionPills`:

- `MentionPill` is a datatype. The source object never changes its two fields after
  construction. `Html()` and `Text()` are its two getters.
- `ParseAnchor` reads an anchor back. It is the inverse used to state that `html`
  carries both fields verbatim.
- `ForUser` is the factory, written imperatively like the source. A `thrown` variable
  plays the part of the `try`/`catch`. It returns the pill (or the formatter's error),
  the calls made to collaborators in order, and the warnings logged.
- `LookupCalls`, `ObtainedProfile`, `CaughtError`, `DisplayName` and `ExpectedWarnings`
  state the lookup chain declaratively. `ForUser` is proved equal to them, and the
  lemmas prove the chain's properties about them.

Collaborators are inputs to the model:

- The Matrix client is a `Client` value. It holds two total functions giving the
  `Outcome` of `getRoomStateEvent` and of `getUserProfile`: `Throws(e)`, `Absent`
  (`null`/`undefined`) or `Found(profile)`.
- `Permalinks.forUser` is the parameter `permalinkForUser`, which may return `Err`.
- `LogService.warn` is recorded as an element of the returned `warnings`.

The model follows the code where it differs from an idealised "room name, else global
name, else user ID" chain:

- A room-scoped profile that exists but has no truthy `displayname` still suppresses the
  global lookup, and the label stays the user ID.
- A global lookup that resolves to nothing is not a quiet fallback. Reading
  `profile['displayname']` from `null` throws, and that error is caught and logged like
  any other (`NullDereference`).
- One `try` wraps both lookups. An error from the room lookup therefore skips the global
  lookup, and at most one warning is ever logged.

## Model

| member | source | states |
|---|---|---|
| `MentionPills.MentionPill.Html` | src/helpers/MentionPill.ts:17-19 | the anchor is `<a href="`, then the permalink, then `">`, then the display name, then `</a>`, each part verbatim (no escaping), with the exact total length |
| `MentionPills.MentionPill.Text` | src/helpers/MentionPill.ts:24-26 | the plain text is exactly the inner text of the `html` anchor, i.e. the stored display name unchanged |
| `MentionPills.AnchorRoundTrip` | src/helpers/MentionPill.ts:17-26 | reading `html` back yields the permalink and `text` unchanged, provided the permalink holds no double quote |
| `MentionPills.ForUser` | src/helpers/MentionPill.ts:35-59 | the permalink is computed first, and its failure propagates with no pill and no lookup; otherwise the pill holds that permalink and `DisplayName`, the calls are the permalink call followed by `LookupCalls`, and the warnings are `ExpectedWarnings` |
| `MentionPills.NoClientNoLookup` | src/helpers/MentionPill.ts:38-40 | with no client, no remote call is made, nothing is logged, and the label is the user ID |
| `MentionPills.ScopedLookupOnlyInRoom` | src/helpers/MentionPill.ts:43-45 | the room member lookup is made iff a client is given and the room ID is present and non-empty; it is the first lookup and asks for `m.room.member` with the user ID as state key |
| `MentionPills.GlobalLookupOnlyWithoutScopedProfile` | src/helpers/MentionPill.ts:46-48 | the global profile lookup is made iff a client is given and the room lookup was skipped or resolved to nothing; it is then the last call |
| `MentionPills.NamelessScopedProfileSkipsGlobal` | src/helpers/MentionPill.ts:46-52 | a room profile without a truthy `displayname` suppresses the global lookup, logs nothing, and leaves the user ID as the label |
| `MentionPills.DisplayNameIsUserIdOrObtainedName` | src/helpers/MentionPill.ts:38-52 | the label is the user ID or a non-empty `displayname` returned by a lookup that was made; a truthy name of the obtained profile is always taken |
| `MentionPills.DisplayNameNonEmpty` | src/helpers/MentionPill.ts:38-52 | the label is non-empty whenever the user ID is |
| `MentionPills.ProfileOrCaughtError` | src/helpers/MentionPill.ts:39-56 | with a client, exactly one of two things happens: a profile is obtained, or an error is caught |
| `MentionPills.ErrorIsSwallowed` | src/helpers/MentionPill.ts:39-58 | a caught error (including the null dereference of an absent global profile) gives exactly one warning tagged `MentionPill` carrying that error, the label is the user ID, and the failing lookup is the last call made (an error from the room lookup means no global lookup follows) |
| `MentionPills.AtMostOneWarning` | src/helpers/MentionPill.ts:54-56 | at most one warning is logged, always tagged `MentionPill` |
| `MentionPills.ScopedNameWins` | src/helpers/MentionPill.ts:43-52 | a room profile named "Alice" gives the label "Alice" and the global lookup is never made |
| `MentionPills.GlobalNameWhenScopedAbsent` | src/helpers/MentionPill.ts:43-52 | an absent room profile and a global profile named "Bob" give the label "Bob" and log nothing |

## Left out

- The network calls `getRoomStateEvent` and `getUserProfile` are not modelled. Their results are supplied as `Outcome` values of a `Client`, fixed for the duration of one call.
- The formatting rules of `Permalinks.forUser` are not modelled. `src/helpers/Permalinks.ts` is not part of this model. The formatter is an arbitrary function that may fail.
- `LogService.warn` is not modelled as output. Each call to it is returned as a `Warning` value.
- `async`/`await` is not modelled. The two lookups are strictly sequential, so each is a plain step.
- JavaScript truthiness of a non-string `displayname`, or of a lookup result that is a truthy non-object, is not modelled. `displayname` is an optional string whose empty value is falsy.
- The privacy of the constructor is not modelled. Dafny offers no private datatype constructor without export sets, so nothing stops other code from building a `MentionPill` directly.
