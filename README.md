# D++ guild-delete cache update and vcpkg release publisher, in Dafny

This project models two small parts of the D++ Discord library repository and proves properties of them.

**`guild_delete.dfy`, module `GuildEvents`.** This is the handler for the Discord `GUILD_DELETE` gateway event. The library keeps five global caches: guilds, emojis, roles, channels and users, each a map from snowflake id to record. The class `Caches` holds them as `map` fields. `Caches.HandleGuildDelete` changes them in place, the way the C++ handler does:
- a guild that is really gone leaves the guild cache;
- so does every emoji, role and channel the guild lists;
- each member of that guild releases one reference on its cached user, and a user whose refcount falls below 1 is evicted;
- the guild's member map is emptied;
- a guild that is only unavailable stays in the cache and gets the `g_unavailable` flag bit.

The registered callback is called only when the guild was found. The handler's loops are proved against a closed-form specification (`GuildDeleteState`, `Dispatched`). The properties of that specification are proved as lemmas.

**`vcpkg.dfy`, module `Packager`.** This is the release publisher that updates D++'s vcpkg port. Its pure parts are modelled as functions:
- the tag is the query output with its line feeds removed;
- the version is the tag without one leading `v`;
- the portfile and manifest templates are filled in from the version and the SHA512 sum;
- `json_encode` of the version string;
- the `Actual hash:\s+([0-9a-fA-F]+)` match that extracts the sum from the first build's output.

Its state is the class `Vcpkg`: the tag, the version and the `firstBuildComplete` flag. A ghost trace `effects` records every file written or deleted and every external command run. With it, the second build's guard is stated as "nothing at all happens before a first build has found a sum".

`wrappers.dfy` holds the `Option` and `Result` types.

## Model

| member | source | states |
|---|---|---|
| `GuildEvents.Caches.HandleGuildDelete` | src/dpp/events/guild_delete.cpp:46-91 | The new caches equal `GuildDeleteState` of the old ones. The callback's event equals `Dispatched` of the old caches. The caches stay keyed by their records' ids. |
| `GuildEvents.Caches.EvictGuild` | src/dpp/events/guild_delete.cpp:50-79 | For a cached guild that is really gone, the new caches equal `GuildDeleteState(old, id, false)`: the guild, its listed emojis, roles and channels are removed and its members' users are released. |
| `GuildEvents.Caches.RemoveEmojis` | src/dpp/events/guild_delete.cpp:52-57 | The loop over the guild's emoji ids leaves the emoji cache minus exactly the listed ids. |
| `GuildEvents.Caches.RemoveRoles` | src/dpp/events/guild_delete.cpp:58-63 | The loop over the guild's role ids leaves the role cache minus exactly the listed ids. |
| `GuildEvents.Caches.RemoveChannels` | src/dpp/events/guild_delete.cpp:64-69 | The loop over the guild's channel ids leaves the channel cache minus exactly the listed ids. |
| `GuildEvents.Caches.ReleaseMembers` | src/dpp/events/guild_delete.cpp:70-79 | The loop over the members, in any order, leaves the user cache equal to `Released`. Each user loses one reference per member pointing at it, and is evicted once touched and below 1. |
| `GuildEvents.ReleaseStep` | src/dpp/events/guild_delete.cpp:71-77 | Handling one more member (decrement, evict below 1) moves `Released` from one set of handled members to that set plus the member. |
| `GuildEvents.DeleteReleasesEachMemberOnce` | src/dpp/events/guild_delete.cpp:70-77 | Members are keyed by user id. Each member's cached user gets refcount minus 1. It is evicted exactly when that is below 1. Other users keep entry and refcount. No user is added. |
| `GuildEvents.UnreferencedUsersKept` | src/dpp/events/guild_delete.cpp:70-77 | A cached user that no member of the deleted guild points at keeps its entry and refcount. |
| `GuildEvents.UnknownGuildIgnored` | src/dpp/events/guild_delete.cpp:48-49 | If the guild is not cached, no cache changes and no callback is made. |
| `GuildEvents.UnavailableOnlyFlags` | src/dpp/events/guild_delete.cpp:81-83 | When unavailable, the guild stays cached with flags `old \| g_unavailable`. Its members and every other cache entry are unchanged. |
| `GuildEvents.UnavailableIdempotent` | src/dpp/events/guild_delete.cpp:82 | A second unavailable event for the same guild changes nothing further. |
| `GuildEvents.DeletedGuildRemoved` | src/dpp/events/guild_delete.cpp:50-51 | When not unavailable, the guild is gone from the guild cache. Every other guild is kept unchanged. |
| `GuildEvents.DeletedGuildEntitiesRemoved` | src/dpp/events/guild_delete.cpp:52-69 | Every emoji, role and channel id the deleted guild lists is absent afterwards. Ids it does not list keep their records. Nothing is added. |
| `GuildEvents.DispatchOnlyForCachedGuild` | src/dpp/events/guild_delete.cpp:85-89 | The callback gets an event exactly when the guild was cached and a handler is registered. The event carries the raw text and the guild. When deleted, that guild has an empty member map (line 80); when unavailable, it has the flag bit. |
| `GuildEvents.HandlerKeepsCachesKeyed` | src/dpp/events/guild_delete.cpp:46-91 | If every cache stores each record under its own id, it still does after the handler. |
| `Packager.StripNewlines` | buildtools/classes/Packager/Vcpkg.php:42 | The result has no line feed. Every other character occurs as often as in the input. |
| `Packager.StripNewlinesAppend` | buildtools/classes/Packager/Vcpkg.php:42 | Removing line feeds commutes with concatenation, so the order of the kept characters is preserved. |
| `Packager.StripNewlinesKeepsClean` | buildtools/classes/Packager/Vcpkg.php:42 | A string without line feeds is unchanged, so stripping is idempotent. |
| `Packager.VersionFromTag` | buildtools/classes/Packager/Vcpkg.php:43 | The version is a suffix of the tag. It is one character shorter exactly when the tag starts with `v`, and equal to the tag otherwise. |
| `Packager.VersionOfVTag` | buildtools/classes/Packager/Vcpkg.php:43 | Only one `v` is removed: the version of `"v" + x` is `x`. |
| `Packager.TagFromVersion` | buildtools/classes/Packager/Vcpkg.php:43 | For a tag starting with `v`, `"v" + version` is the tag again. |
| `Packager.JoinedLine` | buildtools/classes/Packager/Vcpkg.php:98-152 | Each line of a template, once joined with line feeds, is a whole line of the resulting text. |
| `Packager.PortfileLines` | buildtools/classes/Packager/Vcpkg.php:98-128 | The portfile has 31 lines (the last one empty, so the text ends in a line feed). Line 4 is `    REF "v<version>"` and line 5 is `    SHA512 <sha512>`. |
| `Packager.PortfileFixedElsewhere` | buildtools/classes/Packager/Vcpkg.php:98-128 | Any two portfiles agree on every line except the REF and SHA512 lines. |
| `Packager.PortfileText` | buildtools/classes/Packager/Vcpkg.php:98-128 | The portfile text has the line `    REF "v<version>"` and the line `    SHA512 <sha512>`. |
| `Packager.DefaultPortfileSum` | buildtools/classes/Packager/Vcpkg.php:94 | The portfile built with the default sum `"0"` has the line `    SHA512 0`. |
| `Packager.PortfileNamesTag` | buildtools/classes/Packager/Vcpkg.php:101 | For a `v`-prefixed tag, the portfile's REF line names that tag. |
| `Packager.JsonString` | buildtools/classes/Packager/Vcpkg.php:132 | `json_encode` of a string gives a quoted literal of ASCII characters at or above U+0020, so it cannot break the line. A string with no character to escape is returned in plain quotes. |
| `Packager.TemplateListsDependencies` | buildtools/classes/Packager/Vcpkg.php:137-149 | The template's dependency lines are exactly the rendering of a 7-element list: five plain ports and two host tools, with a comma after every entry but the last. |
| `Packager.ManifestLines` | buildtools/classes/Packager/Vcpkg.php:130-152 | The manifest has 23 lines. It opens with `{`, then the name line `"name": "dpp",` and the version line `"version": <json_encode(version)>,`. After `"dependencies": [` come the rendered dependency lines, then `  ]` and `}`. |
| `Packager.ManifestText` | buildtools/classes/Packager/Vcpkg.php:130-152 | The manifest text has the name line and the version line as whole lines. |
| `Packager.ManifestQuotesPlainVersion` | buildtools/classes/Packager/Vcpkg.php:132 | For a version needing no escapes, the version line is the version in plain quotes. |
| `Packager.MatchAtIsPattern` | buildtools/classes/Packager/Vcpkg.php:180 | The scanner captures `h` at position `i` exactly when `Actual hash:`, at least one whitespace character and the maximal non-empty hex run `h` start there. |
| `Packager.FirstMatch` | buildtools/classes/Packager/Vcpkg.php:180 | The result is the capture at the first position where a match starts. No match starts before it. `None` means no position matches. |
| `Packager.ChecksumIsLeftmostMatch` | buildtools/classes/Packager/Vcpkg.php:179-186 | In terms of the pattern itself: the sum found comes from the leftmost match, and "not found" means the pattern matches nowhere. |
| `Packager.ChecksumExample` | buildtools/classes/Packager/Vcpkg.php:180 | `Actual hash:   ABCDEF0123` yields `ABCDEF0123`. |
| `Packager.Vcpkg.constructor` | buildtools/classes/Packager/Vcpkg.php:39-44 | The tag is the query output without line feeds. The version is derived from it. The flag starts false. The one effect is the tag query. |
| `Packager.Vcpkg.Start` | buildtools/classes/Packager/Vcpkg.php:33-38 | It stops with the missing-credentials message exactly when `argv` has fewer than 2 entries. Otherwise it builds a fresh publisher as the constructor does. |
| `Packager.Vcpkg.GetVersion` | buildtools/classes/Packager/Vcpkg.php:50-53 | The version is `VersionFromTag` of the tag and has no line feed. |
| `Packager.Vcpkg.GetTag` | buildtools/classes/Packager/Vcpkg.php:58-61 | The tag has no line feed. |
| `Packager.Vcpkg.ConstructPortAndVersionFile` | buildtools/classes/Packager/Vcpkg.php:94-156 | `sha512` defaults to `DEFAULT_SHA512` (`"0"`). It returns `PortfileText(version, sha512)` and writes `ManifestText(version)` to the manifest path. Equal inputs give identical texts. |
| `Packager.Vcpkg.FirstBuild` | buildtools/classes/Packager/Vcpkg.php:167-187 | On a match it returns the captured hex run and sets the flag. Otherwise it returns `""` and leaves the flag unchanged. The result is non-empty exactly on a match and is all hex digits. The effects are the install steps in source order. |
| `Packager.Vcpkg.SecondBuild` | buildtools/classes/Packager/Vcpkg.php:197-241 | If the flag is false, it fails with the no-checksum error and has no effect. Otherwise it performs the publishing steps in source order. It succeeds exactly when the final install's exit code is 0. On a non-zero code it fails with PHP 8's argument-count error from the one-argument `file_put_contents` at line 239. |

## Left out

- `delete gm->second` and pointer lifetime (guild_delete.cpp:78): caches and member maps are value maps. The guild given to the callback is the guild value after the handler's changes, not a pointer that aliases the cache entry.
- `find_*`, the caches' `remove`, `SnowflakeNotNull` and `BoolNotNull` are not part of this model. A lookup is map membership and a removal is map key removal. The event's `id` and `unavailable` fields are inputs (an absent `unavailable` reads as false). The raw JSON text is carried into the event unparsed.
- The caches' locking and the callback's body: concurrency and user code. The model states only whether the callback is called, and with what.
- The value of `g_unavailable` (0b10) and the width of the user refcount come from headers that are not part of this model. The refcount is an unbounded integer, so an unsigned wrap-around of a refcount already at 0 is not modelled.
- Iteration order over the member map is not modelled. `ReleaseMembers` picks members in any order, and the result is the same for every order.
- `Vcpkg::checkoutRepository` (Vcpkg.php:69-83) is not modelled. It consists only of `chdir`, `system` calls (remove, git config, clone, fetch, checkout) and the URL-encoding of the credentials.
- External commands are not run. The output of the tag query and of the first `vcpkg install` are input strings; a null result of `shell_exec` is the empty string. The exit code of the final install is an input. Each `system` or `exec` call is one abstract `Step` in the ghost effect trace. The one exception is the tag query: `git describe` with its nested `git rev-list` (Vcpkg.php:42) is the single step `DescribeLatestTag`.
- `chdir` and `getenv('HOME')` are not modelled. Paths in the effect trace are written as the source writes them, relative to the working copy.
- The coloured `echo` output is not modelled. The missing-credentials message is kept without its colour codes.
- `SecondBuild` assumes PHP 8. The build-log dump at Vcpkg.php:239 calls `file_put_contents` with one argument, where reading the log was evidently meant. Under PHP 8 that call throws an uncaught `ArgumentCountError`, so the run ends with a fatal error; the model returns `Failure(LOG_DUMP_ERROR)`. Under PHP 7.4 the call would only warn and print nothing, and the run would end normally. That outcome is not modelled.
- `json_encode` failing on bytes that are not valid UTF-8 is not modelled. Strings here are sequences of Unicode scalar values, so every string encodes.
- The start-up check is modelled as written. The `die` message at Vcpkg.php:37 names both the owner and the token, and `checkoutRepository` reads `$argv[2]` (Vcpkg.php:72, 77). But the guard at Vcpkg.php:36 tests only `count($argv) < 2`, so `Start` accepts an `argv` with the owner but no token.
