# mpdcast, modelled in Dafny

mpdcast is a command-line script (`mpdcast.js`) that takes file paths or URLs,
expands any that are playlist documents (`.pls`, `.m3u`, `.asx`) into their
tracks, adds every track to a running MPD daemon, and optionally starts playback
of the last track added. Most of the script is glue around libraries. This
project models the deterministic rules inside that glue, which decide what
reaches the daemon, and proves properties about them:

- **Entry classification** (`load`). The extension of an entry is lower-cased,
  its leading dot is dropped, and it is cut at the first `?`. Exactly `pls`,
  `m3u` and `asx` route the entry to playlist loading. Every other entry
  becomes the one-descriptor list `[{file: entry}]`, with the entry unchanged
  (`Loader`).
- **Playlist truncation** (`loadPlaylist`). The parser's output is cut with
  `slice(0, num)`, keeping the same integer semantics, including a negative
  `num`, which counts from the back. As the code is written, the cut happens
  only when `verbose` is truthy and the list is longer than `num` (`Loader.Truncate`).
- **Positional entries and flattening** (`main`). The entries are
  `args._.slice(2)`. The per-entry lists are concatenated in input order
  (`Pipeline`, `Seqs`).
- **Enqueue planning** (`enqueue`). For each descriptor the plan is
  `playlistadd [playlist, file]` when a playlist is set, then
  `addid [file]` when no playlist is set or `start` is set. Commands are records
  of a name and its parameters (`Enqueue`).
- **Play target** (`play` and its call site in `main`). `playid` is sent with
  the `Id` of the last reply of the last descriptor. With `start` set, that reply
  is always the last descriptor's `addid` reply. With `start` set and nothing
  enqueued, the script crashes on an `undefined` dereference (`Enqueue.Play`,
  `Session`).

Assumptions about code the script calls but does not contain:

- Node's POSIX `path.extname` is modelled in `NodePath`:
  - only the last path segment counts, and trailing slashes are ignored;
  - the extension runs from that segment's last `.` to its end;
  - it is `""` when the segment has no dot, when its only dot is its first
    character, or when the segment is `..`.
- `String.prototype.toLowerCase` is modelled on ASCII letters only.
- `playlistParser[...].parse` and `loadData` together become the parameter
  `source: (string, Format) -> seq<Descriptor>`. It gives the parsed playlist
  of an entry in a format.
- The daemon's replies are an input, `queued: seq<seq<Reply>>`.
  - A reply is either `Ack`, the raw reply of `playlistadd`, or `Added(id)`,
    the parsed `addid` reply.
  - `Enqueue.Answers` says a reply list answers a plan. There is one reply per
    command, at the same position, because `Promise.all` keeps positions.
  - `Number.parseInt` of the `Id` is taken as already done. A reply without an
    `Id` gives `NaN`.

The truthiness tests of the script are written out:

- A playlist option counts as set only when it is a non-empty string.
- `verbose` is a count, truthy when positive.
- `full.length > undefined` is false, so a missing `num` never cuts.

Two facts about the options as the code handles them:

- The entry limit applies only when `verbose` is truthy (mpdcast.js:113), and
  so does `Loader.Truncate`.
- The options define only `num`/`n` for the limit (mpdcast.js:27-32).

Two consequences of the code as written can be read off the lemmas:

- An entry whose query string holds a dot (`x.m3u?v=1.2`) has the extension
  `.2`, so it passes through as a plain file. `path.extname` takes the last dot
  of the whole last segment, query included (`NodePath.ExtNameSpec`).
- Without `start`, a set playlist gives one command per entry, and no playlist
  gives one `addid` per entry (`Enqueue.PlanEntry`).

## Model

| member | source | states |
|---|---|---|
| `Config.PlaylistSet` | mpdcast.js:150 | `args.playlist` is truthy: given and not the empty string; `Enqueue.PlanEntry` states that `playlistadd` is planned exactly then |
| `Config.Verbose` | mpdcast.js:113 | `args.verbose` is truthy: a positive count; `Loader.Truncate` states that only then can the limit cut |
| `Config.AddsToQueue` | mpdcast.js:157 | `!args.playlist \|\| args.start`; `Enqueue.PlanEntry` states that `addid` is planned exactly then |
| `Text.Lower` | mpdcast.js:77 | lower-casing keeps the length and maps each character on its own: an ASCII capital becomes its small letter, every other character stays |
| `Text.DropFirst` | mpdcast.js:77 | `substring(1)`: the result is the string without its first character, and `""` stays `""` |
| `Text.IndexOf` | mpdcast.js:78 | `indexOf`: -1 exactly when the character does not occur; otherwise the position of its first occurrence |
| `NodePath.ExtNameSpec` | mpdcast.js:77 | `path.extname` is empty exactly when the last segment is `..` or has no dot after its first character; otherwise it is a tail of that segment that starts with its only dot; it never holds a `/` |
| `NodePath.ExtName` | mpdcast.js:77 | `path.extname` under the POSIX rules; what it computes is stated by `NodePath.ExtNameSpec`, and that it commutes with lower-casing by `NodePath.ExtNameLower` |
| `NodePath.ExtNameLower` | mpdcast.js:77 | lower-casing an entry and then taking its extension gives the lower-cased extension |
| `Loader.Token` | mpdcast.js:77-81 | the token holds no `?` and is a prefix of the extension without its dot; it is cut at the first `?` when there is one, and is that whole string when there is none |
| `Loader.ExtToken` | mpdcast.js:77-81 | `ext` for an entry: the token of the entry's lower-cased extension; its meaning is stated by `Loader.Token`, and for the three format names by `Loader.TokenIff` and `Loader.ClassifyIff` |
| `Loader.Extension` | mpdcast.js:77-81 | the step-by-step narrowing of `ext` (lower-case, drop the dot, cut at `?`) yields the token of the entry |
| `Loader.FormatOf` | mpdcast.js:83-89 | a token selects format `f` exactly when it is `f`'s name (`pls`, `m3u`, `asx`), and no format otherwise |
| `Loader.Classify` | mpdcast.js:83-89 | the route `load` takes; `Loader.ClassifyIff` states exactly when it picks each format, `Loader.ClassifyCaseInsensitive` that case does not matter |
| `Loader.TokenIff` | mpdcast.js:77-89 | for an extension that starts with a dot, the token is a format's name exactly when the extension is that name after a dot, followed by nothing or by `?` |
| `Loader.ClassifyIff` | mpdcast.js:77-89 | an entry is routed to playlist loading as format `f` exactly when its lower-cased extension is `.` + `f`'s name, optionally followed by a `?` query (both directions) |
| `Loader.ClassifyCaseInsensitive` | mpdcast.js:77 | two entries that are equal once lower-cased take the same route |
| `Loader.ClassifyExample` | mpdcast.js:76-89 | the entry `a/B.M3U` is loaded as an M3U playlist |
| `Loader.SliceTo` | mpdcast.js:115 | `slice(0, end)` gives a prefix; for `end >= 0` of length `min(end, length)`, for `end < 0` of length `max(length + end, 0)` |
| `Loader.Truncate` | mpdcast.js:113-117 | the result is a prefix of the parsed list; with `verbose` and `0 <= num < length` it has exactly `num` entries; with `verbose` and a negative `num` it drops `-num` from the back; in every other case, including no `num` or no `verbose`, it is the parsed list unchanged |
| `Loader.LoadPlaylist` | mpdcast.js:102-119 | reassigning `full` only when the verbose limit applies yields the truncated parse |
| `Loader.LoadEntry` | mpdcast.js:76-100 | a non-playlist entry yields exactly `[{file: entry}]`; a playlist entry yields a prefix of its parsed playlist, all of it when no verbose limit is in force |
| `Loader.Load` | mpdcast.js:76-100 | trying `pls`, `m3u`, `asx` in turn and otherwise passing the entry through yields the entry's resolved list |
| `Seqs.Flatten` | mpdcast.js:208-210 | the concatenation's length is the sum of the lists' lengths |
| `Seqs.FlattenAppend` | mpdcast.js:209 | flattening distributes over appending lists of lists |
| `Seqs.FlattenSplit` | mpdcast.js:209 | the concatenation is the lists before `i`, then list `i`, then the lists after it |
| `Seqs.FlattenAt` | mpdcast.js:209 | element `j` of list `i` is at position (total length of the lists before `i`) + `j` |
| `Seqs.FlattenOrder` | mpdcast.js:209 | all of an earlier list's positions come before any of a later list's |
| `Seqs.FlattenUniform` | mpdcast.js:209 | when every list has length `k`, the concatenation has `k` times as many elements as there are lists |
| `Pipeline.Positional` | mpdcast.js:198 | `slice(2)`: the arguments from index 2 on, in order, and none when there are at most two |
| `Pipeline.LoadAll` | mpdcast.js:205-207 | one resolved list per entry, at the same index |
| `Pipeline.Resolve` | mpdcast.js:205-210 | the flat list handed to `enqueue`; its order, positions and length are stated by `Pipeline.ResolveOrder`, `Pipeline.ResolveAt`, `Pipeline.ResolveLength` and `Pipeline.ResolveTwo` |
| `Pipeline.LoadAllSlice` | mpdcast.js:205-207 | resolving a slice of the entries is the same slice of the resolved lists |
| `Pipeline.ResolveOrder` | mpdcast.js:205-210 | the flat list is what the entries before entry `k` resolve to, then entry `k`'s list, then the rest's |
| `Pipeline.ResolveAt` | mpdcast.js:205-210 | descriptor `j` of entry `i` is in the flat list right after the descriptors of the entries before `i` |
| `Pipeline.ResolveLength` | mpdcast.js:205-210 | the flat list's length is the sum of the per-entry lengths |
| `Pipeline.ResolveTwo` | mpdcast.js:198-210 | for arguments `node script a b`, the flat list is `a`'s list followed by `b`'s |
| `Enqueue.PlanEntry` | mpdcast.js:149-164 | `playlistadd` is planned exactly when a playlist is set, and `addid` exactly when no playlist is set or `start` is set; `playlistadd [playlist, file]` comes first and `addid [file]` last; 0, 1 or 2 commands accordingly |
| `Enqueue.PlanEntryCommands` | mpdcast.js:149-163 | pushing onto `all` under the two tests gives exactly the planned commands |
| `Enqueue.Plan` | mpdcast.js:147-148 | one command list per descriptor, at the same index |
| `Enqueue.Play` | mpdcast.js:168-173 | on a non-empty queue whose last list is non-empty, `playid` with one parameter: the last reply's `Id`, or `NaN` when that reply has none |
| `Enqueue.StartEndsWithAddId` | mpdcast.js:157-163 | with `start`, every descriptor's command list is non-empty and ends with its own `addid` |
| `Enqueue.StartPlaysLastAdded` | mpdcast.js:157-172 | with `start`, a non-empty list and replies that answer the plan, the last reply list is non-empty, its last reply answers the last descriptor's `addid`, and `play` sends `playid` with that `Id` |
| `Enqueue.PlanSize` | mpdcast.js:147-165 | the whole plan has the per-descriptor command count times the number of descriptors |
| `Session.AfterEnqueue` | mpdcast.js:235-242 | nothing is played exactly when `start` is off; the run crashes exactly when `start` is on and the queue or its last list is empty |
| `Session.Deliver` | mpdcast.js:232-246 | the commands sent are the flattened plan, followed by the `playid` exactly when it plays, and only when `start` is set |
| `Session.Main` | mpdcast.js:193-246 | `main` without parsing, loading and the socket: the flat list of `argv`'s entries, delivered; `Session.MainTwoEntries` and the `Session.Deliver*` lemmas state what it sends |
| `Session.DeliverCrashesIff` | mpdcast.js:232-246 | with replies that answer the plan, the run crashes exactly when `start` is set and no descriptor was resolved |
| `Session.DeliverPlaysLast` | mpdcast.js:232-242 | with `start` and a non-empty flat list, the last command sent is `playid` with the `Id` the daemon gave the last descriptor's `addid` |
| `Session.DeliverSentCount` | mpdcast.js:232-242 | the number of commands sent is the per-descriptor count times the descriptors, plus one `playid` when `start` is set and something was resolved |
| `Session.MainTwoEntries` | mpdcast.js:198-242 | for arguments `node script a b`, the run is that of `a`'s resolved list followed by `b`'s, so every command for `a`'s tracks is planned before any for `b`'s |

## Left out

- Option parsing with yargs and the `MPD_` environment mapping (mpdcast.js:15-71): a library wrapper. Its result is the record `Config.Args`. Host and port only reach the socket client (mpdcast.js:176-179). The password is parsed (mpdcast.js:54-57) and never used. None of the three is in the record.
- Non-integer or `NaN` values of `num` (yargs coerces with `number: true`): `num` is an `int`.
- A playlist option given as a non-string: the option is a string.
- Positional entries that yargs turns into numbers (such as `2019` or `1.5`): entries are strings. For such an entry `path.extname` throws a `TypeError` at mpdcast.js:77 and `main` stops before connecting; the model instead passes it through as a plain file, because number coercion belongs to the option parser, which is not modelled.
- `loadData` (mpdcast.js:124-142): filesystem probing, file reads and HTTP fetches are I/O. They are folded into the `source` parameter.
- `playlistParser[...].parse` (mpdcast.js:112): a foreign grammar library. Its output is whatever `source` gives. Of each parsed entry only `file` is kept, since `enqueue` reads only that.
- Errors raised while loading, parsing or talking to the daemon: a rejected promise aborts the whole run, and there is no recovery to model. The one failure the model keeps is the `TypeError` of `play` on an empty queue.
- The socket client (`client`, mpdcast.js:175-185; the `sendCommand` wrapper, mpdcast.js:226-230), the wire encoding of commands (`mpd.cmd`), and `mpd.parseKeyValueMessage` (mpdcast.js:161): commands are records, and replies are given.
- `disconnect` (mpdcast.js:217-224, 243-246): closing the socket is I/O. The property that it runs once on both paths is not modelled.
- Promise concurrency and settlement order (`Promise.all`, `p-defer`): positions are kept, and the order in which replies arrive is not modelled. `Session.Deliver` lists commands in the order `sendCommand` is called.
- The `unhandledRejection` handler (mpdcast.js:187-191) and every `console.log`: output only.
- `Text.Lower`: does not model Unicode case mapping beyond ASCII letters, because the model works on characters without a Unicode table. An extension that holds non-ASCII capitals may therefore classify differently from the script.
- `NodePath.ExtName`: Node's implementation is a right-to-left scan. It is modelled by the rule it implements, not by that loop, because the scan belongs to the platform, not to this script.
