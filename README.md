# systemcloud: Pacemaker resource agents for clustered services

This project models the core of systemcloud, a set of OCF resource agents that let
Pacemaker run systemd services as clones or master/slave resources. It covers MariaDB
Galera, which is bootstrapped from one elected node, and RabbitMQ. It proves properties of
that model in Dafny. The model covers five parts:

- **The Galera state and election** (`GaleraState`, `GaleraElection`, `GaleraGrastate`,
  `GaleraSafeToBootstrap`, `GaleraForceSafe`, `GaleraRecovery`, `GaleraAgent`):
  - the `uuid:seqno` state and its truthiness;
  - the deterministic choice of the bootstrap node;
  - the `grastate.dat` reader, the in-place `safe_to_bootstrap` rewrite the agent performs (and,
    separately, a corrected rewrite; see Findings) and the recovery-log scan;
  - the decisions of `reconfigure`, `service_start`, `master_start`, `master_stop` and
    `master_is_running` on a `GaleraNode` object whose fields they update.
- **The OCF agent plumbing** (`OcfEnviron`, `OcfAgent`):
  - instance names, `param`/`meta` lookups with their defaults;
  - the notification lists and the `future_*`/`current_*` membership algebra;
  - `peer`, the master score and the `dispatch` table with its mapping of errors to exit codes.
- **The action state machine** (`SystemcloudAgent`, `SystemcloudProperties`): validate,
  monitor, notify, start, promote, demote and stop of the single-state, multi-state and
  bootstrapping agents.
  - Each action is a method on a `ServiceAgent` object. It is proved to issue exactly the
    commands of a plan, a function of the state it starts from.
  - The properties of the actions are proved about those plans.
- **The attribute store client** (`Crm`, `OcfAttribute`, `OcfParameter`):
  - the `crm_attribute` argument vector and its return-code classification, over a `Cib`
    object holding the attributes;
  - the per-agent read-through, write-through attribute cache and the attribute naming schemes;
  - the memoised parameters.
- **Encodings and metadata** (`OcfTypes`, `OcfExceptions`, `OcfAction`, `Rabbitmq`):
  - `from_ocf`/`to_ocf`;
  - the exit codes and the `ocf-exit-reason:` line;
  - the `action` decorator and the `ActionRoles`/`Action` metadata objects;
  - RabbitMQ's `cluster_nodes` configuration.

`Strings`, `Numerals`, `Sorting` and `Wrappers` are helpers. They model Python's `split`,
`strip`, `join`, `int()`/`'%d'`, `sorted` and `set`.

The source is Python 2. The model therefore follows Python 2 here:
- `None` compares below every integer, so an unset `master_max` is not `> 0`.
- `sys.exit(None)` exits with status 0.
- A `GaleraState` is false exactly when its sequence number is -1.

Three behaviours of the code are easy to miss, and the model follows them:
- When no cluster UUID is recorded and the peers report the zero UUID and exactly one other
  UUID, `choose_bootstrap` adopts that UUID rather than refusing
  (systemcloud/galera.py:333-336).
- An unset notification list is an error, not an empty membership. `set(None)` and
  `sorted(None)` raise (ocf/agent.py:262-312), so the model returns an error.
- `MultiStateResourceAgent.action_start` returns None (systemcloud/agent.py:159-165), and
  `dispatch` exits with status 0 for it.

## Model

| member | source | states |
|---|---|---|
| OcfExceptions.ExitRcDistinguishesClasses | ocf/exceptions.py:9-35 | Two error classes share an exit code exactly when both are OcfError or GenericError. |
| OcfExceptions.NonEmpty | ocf/exceptions.py:13-14 | The kept lines are non-empty lines of the message, and a message without empty lines is kept whole. |
| OcfExceptions.NonEmptyAppend | ocf/exceptions.py:13-14 | Filtering two blocks of lines one after the other gives the filtered blocks in the same order. |
| OcfExceptions.NonEmptyOne | ocf/exceptions.py:13-14 | One line is kept exactly when it is not empty. |
| OcfExceptions.ExitWith | ocf/exceptions.py:11-15 | An OCF error exits with its class's code, and any other exception with ERR_GENERIC. The exit is never SUCCESS and always has a reason. |
| OcfExceptions.ReasonLineIsOneLine | ocf/exceptions.py:13-14 | The reason line has exactly one newline, as its last character, whatever the message. |
| OcfExceptions.ReasonLineOfOneLine | ocf/exceptions.py:13-14 | A non-empty one-line message is reported as `ocf-exit-reason:` + message + newline. |
| OcfExceptions.ReasonLineIgnoresTrailingNewline | ocf/exceptions.py:13-14 | A trailing newline in the message does not change the reason line. |
| OcfExceptions.ReasonLineOfLines | ocf/exceptions.py:13-14 | A message made of lines is reported as its non-empty lines joined by a vertical bar between spaces, in their order. |
| OcfExceptions.ReasonLineKeepsLines | ocf/exceptions.py:13-14 | When no line is empty, every line of the message appears in the reason, in order. |
| OcfTypes.FromOcf | ocf/types.py:4-11 | Decoding fails exactly for int text that is not a decimal and for state text that does not parse. A decoded state is well formed. |
| OcfTypes.FromOcfType | ocf/types.py:4-11 | A successful decode yields a value of the requested type. |
| OcfTypes.PlainFromOcf | ocf/types.py:8-11 | bool, list and str decodes never fail and give a value of that type. |
| OcfTypes.IntFromOcf | ocf/types.py:11 | `int(value)` fails exactly when the stripped text is not a sign, optional whitespace and decimal digits, and then with IntError's message. |
| OcfTypes.IntError | ocf/types.py:11 | The ValueError message of `int()` holds no raw newline. |
| OcfTypes.IntErrorReason | ocf/types.py:11 | An unreadable integer is reported on one reason line holding the whole message. |
| OcfTypes.IntErrorSkipsSpace | ocf/types.py:11 | Leading whitespace of the value does not appear in the message. |
| OcfTypes.IntErrorPlain | ocf/types.py:11 | A short value of plain printable characters is quoted between single quotes. |
| OcfTypes.StateFromOcf | ocf/types.py:11 | `GaleraState(value)` fails exactly when the state text is malformed, and otherwise gives a well-formed state. |
| OcfTypes.FromOcfToOcf | ocf/types.py:4-20 | Encoding a storable value and decoding it as its own type returns it. This covers booleans, lists of words, strings, ints and states. |
| OcfTypes.FromOcfStorable | ocf/types.py:4-11 | Every decoded value is storable. Its encoding therefore reads back. |
| OcfTypes.FromOcfNormalises | ocf/types.py:4-20 | Decoding, encoding and decoding again gives the first decode, so `to_ocf(from_ocf(s))` is a normal form. |
| Strings.WordsJoin | ocf/types.py:9-18 | Splitting the single-space join of non-empty, space-free words gives the words back. |
| Strings.WordsNormalised | ocf/types.py:9-18 | Splitting, joining and splitting again gives the first split. |
| Numerals.ParseIntToString | systemcloud/galera.py:92-101 | `int('%d' % n) == n` for every integer. |
| Numerals.ParseSpaceAfterSign | systemcloud/galera.py:92-94 | Whitespace between the sign and the digits is skipped, so `int('- 5') == -5`. |
| GaleraState.StripBraces | systemcloud/galera.py:87-91 | No brace remains at either end, and the result is no longer than the input. |
| GaleraState.RemoveHyphens | systemcloud/galera.py:87-91 | No hyphen remains, and the result is no longer than the input. |
| GaleraState.ValidUuidCharacters | systemcloud/galera.py:87-91 | A valid UUID consists only of hex digits, hyphens and braces. |
| GaleraState.ZeroUuidValid | systemcloud/galera.py:68 | The zero UUID is a valid UUID. |
| GaleraState.CanonicalUuidValid | systemcloud/galera.py:87-91 | Every canonical 8-4-4-4-12 hex spelling is accepted. |
| GaleraState.Normalise | systemcloud/galera.py:96-98 | 2^64-1 never survives normalisation. Every other value is kept. |
| GaleraState.Make | systemcloud/galera.py:87-98 | Construction from a UUID and a sequence number fails exactly for an invalid UUID or a non-integer sequence number. A result keeps the UUID text and has the normalised number. |
| GaleraState.Parse | systemcloud/galera.py:84-98 | A parsed state is well formed: a valid UUID and a sequence number other than 2^64-1. |
| GaleraState.ParseOneColon | systemcloud/galera.py:84-86 | Any text that parses has exactly one colon and is made from the part before it and the part after it. |
| GaleraState.ParseParts | systemcloud/galera.py:84-98 | Text with exactly one colon parses as `Make` of its two parts. |
| GaleraState.ParseFormat | systemcloud/galera.py:81-101 | A well-formed state formatted with `__str__` parses back to itself. |
| GaleraState.ParseUnsignedMinusOne | systemcloud/galera.py:96-106 | `uuid:18446744073709551615` parses to sequence number -1, which is false. |
| GaleraState.ParseIdempotent | systemcloud/galera.py:81-101 | Formatting a parsed state and parsing it again gives the same state. |
| GaleraElection.NonZeroUuids | systemcloud/galera.py:333 | A UUID is listed exactly when it is non-zero and some peer reports it. |
| GaleraElection.DistinctUuids | systemcloud/galera.py:333-334 | The set of non-zero UUIDs has more than one element exactly when two reported non-zero UUIDs differ. |
| GaleraElection.TargetUuid | systemcloud/galera.py:329-337 | A recorded cluster UUID wins. Otherwise two distinct non-zero UUIDs raise ConfiguredError, a single one is adopted, and none gives the zero UUID. |
| GaleraElection.Members | systemcloud/galera.py:338 | The members are exactly the peers on the UUID. |
| GaleraElection.AtMostTransitive | systemcloud/galera.py:347 | The `(seqno, node)` order is transitive. |
| GaleraElection.AtMostTotal | systemcloud/galera.py:347 | Any two reported peers are comparable. |
| GaleraElection.AtMostAntisymmetric | systemcloud/galera.py:347 | Two peers that are each at most the other have the same sequence number and node name. |
| GaleraElection.Best | systemcloud/galera.py:347 | `max(members, key=(seqno, node))` is a member, and no member is greater. |
| GaleraElection.ChooseBootstrap | systemcloud/galera.py:311-349 | Any unreported peer gives None. Errors arise only once every peer has reported, and are "Multiple UUIDs" or another ConfiguredError. |
| GaleraElection.NoPeersMessageAsWritten | systemcloud/galera.py:340 | The text of the exception as raised: the repr of its two-argument tuple, on one line. |
| GaleraElection.NoPeersMessageOfUuid | systemcloud/galera.py:340 | For a plain UUID that text is `('No peers match cluster UUID %s', '<uuid>')`. |
| Strings.PyRepr | systemcloud/galera.py:340 | Python 2's `repr` of a string is quoted at both ends and holds no newline. |
| Strings.ReprPlain | systemcloud/galera.py:340 | A string of printable characters without quotes or backslashes has the repr `'<s>'`. |
| GaleraElection.NoMatchingPeer | systemcloud/galera.py:338-340 | With every peer reported and nobody on the target UUID, the result is a ConfiguredError whose text is the tuple repr raised as written. |
| GaleraElection.ElectedIsMaximal | systemcloud/galera.py:338-347 | An elected node is on the target UUID and is the greatest of its members by `(seqno, node)`. On a non-zero UUID every member knows its sequence number. |
| GaleraElection.WaitsForUnknown | systemcloud/galera.py:341-346 | With all peers reported and some peer on the target, the election waits if and only if the UUID is non-zero and a member has sequence number -1. |
| GaleraElection.TargetUuidConverges | systemcloud/galera.py:329-337 | Two report lists with the same elements give the same target UUID. |
| GaleraElection.BestConverges | systemcloud/galera.py:347 | Two member lists with the same elements elect the same node. |
| GaleraElection.Convergence | systemcloud/galera.py:311-349 | The election depends only on the set of reports and the cluster UUID, not on order or repeats, so every node computes the same answer. |
| GaleraElection.AdoptsSingleNonZeroUuid | systemcloud/galera.py:333-336 | With no recorded UUID, one non-zero UUID beside zero UUIDs becomes the target, and any elected node is a peer on it. |
| GaleraElection.ElectsBestOfTwo | systemcloud/galera.py:341-347 | Two known peers on a non-zero UUID elect the greater of them. |
| GaleraElection.TieGoesToGreaterNode | systemcloud/galera.py:347 | With equal sequence numbers, node `b` is elected over `a`. |
| GaleraElection.HighestSeqnoWins | systemcloud/galera.py:347 | A higher sequence number wins over a greater node name. |
| GaleraElection.NoPeersReasonAsWritten | systemcloud/galera.py:340 | As written, the exit reason carries the unfilled format string and a tuple repr, and differs from the intended reason. |
| GaleraElection.NoPeersReason | systemcloud/galera.py:340 | The intended reason line is `No peers match cluster UUID <uuid>`. |
| GaleraElection.ElectsWhenNotWaiting | systemcloud/galera.py:324-347 | Once every peer has reported, the target UUID is readable, some peer is on it and no peer on a non-zero UUID has sequence number -1, the best of the peers on that UUID is elected. |
| GaleraElection.TargetErrPropagates | systemcloud/galera.py:324-335 | Once every peer has reported, a UUID conflict ("Multiple UUIDs in new cluster") is the election's result. |
| GaleraGrastate.Lines | systemcloud/galera.py:245 | `for line in f` yields lines that concatenate to the file. Every line but the last ends with its only newline. |
| GaleraGrastate.LinesConcat | systemcloud/galera.py:245 | Lines written back to back are read back as the same lines. |
| GaleraGrastate.EntryOf | systemcloud/galera.py:248 | An entry has a non-empty key of word characters, followed by a colon in the text, and a value without a newline. |
| GaleraGrastate.ClassifyLine | systemcloud/galera.py:246-251 | A line is skipped exactly when it is blank or a comment after leading whitespace. An entry's key is followed by a colon in the line, and its value has no newline. |
| GaleraGrastate.EntryLine | systemcloud/galera.py:248 | `key:<spaces>value` is read as that entry. |
| GaleraGrastate.LeadingSpaceIgnored | systemcloud/galera.py:246-248 | Leading whitespace before a non-space character does not change how a line is classified. |
| GaleraGrastate.EntryOfKey | systemcloud/galera.py:248 | A word key and a colon give an entry with the stripped remainder as its value, unless that remainder spans lines. |
| GaleraGrastate.PaddedEntryLine | systemcloud/galera.py:248 | Whitespace around an entry and after its colon gives the same entry. |
| GaleraGrastate.CommentLine | systemcloud/galera.py:246-247 | A `#` line and a blank line are skipped. |
| GaleraGrastate.FirstCorrupt | systemcloud/galera.py:249-251 | The index found is a corrupt line with no corrupt line before it. None means no line is corrupt. |
| GaleraGrastate.FirstCorruptAt | systemcloud/galera.py:249-251 | A corrupt line after only good ones is the first corrupt line. |
| GaleraGrastate.FromRaw | systemcloud/galera.py:253-263 | A missing `uuid`, then a missing `seqno`, raises GenericError naming the file. Otherwise the result is the state made from both, or the ValueError text plus the file. |
| GaleraGrastate.GrastateOf | systemcloud/galera.py:236-265 | A missing file gives None. Otherwise the read succeeds exactly when no line is corrupt and the entries form a state, and every error is a GenericError. |
| GaleraGrastate.CorruptLineReported | systemcloud/galera.py:249-251 | A corrupt line raises `Corrupt <file> on line <n>`, counting from one. |
| GaleraGrastate.CleanFileRead | systemcloud/galera.py:252-263 | Without a corrupt line, the result is what the collected entries give. |
| GaleraGrastate.ReadGrastate | systemcloud/galera.py:236-265 | The line loop filling `raw` returns exactly `GrastateOf` of the file. |
| GaleraGrastate.GrastateOfEntries | systemcloud/galera.py:245-263 | Clean lines whose `uuid` and `seqno` form a state read as that state. |
| GaleraGrastate.GrastateRoundTrip | systemcloud/galera.py:236-265 | The file Galera writes reads back as the state it records. |
| GaleraGrastate.SkippedLineIgnored | systemcloud/galera.py:246-247 | Inserting a blank or comment line changes nothing. |
| GaleraGrastate.LaterEntryWins | systemcloud/galera.py:252 | A later entry for a key overrides an earlier one. |
| GaleraSafeToBootstrap.ValueIn | systemcloud/galera.py:226 | A match is whitespace, a non-empty run without whitespace, then only whitespace. |
| GaleraSafeToBootstrap.SafeValueOf | systemcloud/galera.py:226 | Every line of that shape after `safe_to_bootstrap:` matches, at the places its parts occupy. |
| GaleraSafeToBootstrap.SafeLineRewriteAsWritten | systemcloud/galera.py:226-228 | The as-written replacement keeps the line's length, which is what lets it be written in place. |
| GaleraSafeToBootstrap.AsWrittenLosesKey | systemcloud/galera.py:226-228 | The as-written rewrite leaves neither an entry nor a comment, and no newline. |
| GaleraSafeToBootstrap.SafeLineRewriteCorrected | systemcloud/galera.py:226-228 | Corrected version, not what the agent runs (see Findings): the replacement keeps the line's length. |
| GaleraSafeToBootstrap.CorrectedRewriteKeepsNewlines | systemcloud/galera.py:226-231 | Corrected version: the rewrite keeps the line's length and every newline in place. |
| GaleraSafeToBootstrap.CorrectedRewriteReadsBack | systemcloud/galera.py:226-228 | Corrected version: a rewritten line reads back as the entry `safe_to_bootstrap: 1`. |
| GaleraSafeToBootstrap.MatchIsEntry | systemcloud/galera.py:226-248 | A line the rewrite matches reads as the `safe_to_bootstrap` entry with its value. |
| GaleraSafeToBootstrap.SafeLineShape | systemcloud/galera.py:226 | A matched line is whitespace, the key, whitespace, the value and whitespace. |
| GaleraSafeToBootstrap.SafeLineRewriteCorrectedOf | systemcloud/galera.py:226-228 | Corrected version: every line of that shape is rewritten to the same shape with the value `1` and spaces. |
| GaleraForceSafe.RewriteFirst | systemcloud/galera.py:221-234 | The rewritten file has as many lines as the original. |
| GaleraForceSafe.ReadLine | systemcloud/galera.py:223 | `readline` at a position returns the length of the line starting there, up to and including its newline. |
| GaleraForceSafe.WriteAt | systemcloud/galera.py:230-231 | `f.seek(pos); f.write(line)` overwrites exactly the characters from `pos` on with `line` and keeps the rest. |
| GaleraForceSafe.RewriteFirstLine | systemcloud/galera.py:221-234 | The seek, read and write loop leaves the file equal to its lines with the first matching one rewritten. |
| GaleraForceSafe.OverwriteLine | systemcloud/galera.py:229-231 | Overwriting a line at its position with a same-length rewrite leaves the lines back to back. |
| GaleraForceSafe.ForceSafeToBootstrapCorrected | systemcloud/galera.py:216-234 | Corrected version: a missing file stays missing. Otherwise the file becomes its contents with the first matching line's value replaced. |
| GaleraForceSafe.RewriteFirstAt | systemcloud/galera.py:229-234 | When line i is the first to match, only line i changes. |
| GaleraForceSafe.RewriteFirstNone | systemcloud/galera.py:221-234 | When no line matches, nothing changes. |
| GaleraForceSafe.LinesOfRewritten | systemcloud/galera.py:221-234 | The rewritten file splits into the rewritten lines. |
| GaleraForceSafe.LinesOfForcedCorrected | systemcloud/galera.py:221-234 | Corrected version: the forced file's lines are the original lines with the first matching one rewritten. |
| GaleraForceSafe.GrastateAlike | systemcloud/galera.py:236-265 | Files whose lines read alike except for `safe_to_bootstrap` give the same `read_grastate` result. |
| GaleraForceSafe.ForcedCorrectedReadsAlike | systemcloud/galera.py:226-248 | Corrected version: the forced file reads like the original line by line, except for `safe_to_bootstrap`. |
| GaleraForceSafe.ForceCorrectedPreservesState | systemcloud/galera.py:201-265 | Corrected version: forcing never changes what `read_grastate` reports, whether a state or an error. |
| GaleraForceSafe.ForceSafeToBootstrapAsWritten | systemcloud/galera.py:216-234 | The loop the agent runs: a missing file stays missing, and otherwise the first matching line, newline included, becomes `1` and spaces of the same length. |
| GaleraForceSafe.GaleraLinesBeforeFlag | systemcloud/galera.py:226 | The header, version, uuid and seqno lines Galera writes do not match. |
| GaleraForceSafe.FlagLineMatches | systemcloud/galera.py:226 | Galera's `safe_to_bootstrap: v` line matches the pattern. |
| GaleraForceSafe.FlagLineRewriteAsWritten | systemcloud/galera.py:226-228 | As written, that line becomes `1` and 19 + \|v\| spaces, with no key and no newline; for `0`, `1` and 20 spaces. |
| GaleraForceSafe.FlagLineRewriteCorrected | systemcloud/galera.py:226-228 | Corrected version: the line keeps its key and its value becomes `1` padded to the length of v. |
| GaleraForceSafe.GaleraFileForcedCorrected | systemcloud/galera.py:204-234 | Corrected version: forcing Galera's file with `safe_to_bootstrap: 0` gives the file Galera writes with `1`. |
| GaleraForceSafe.ForcedAsWrittenAt | systemcloud/galera.py:229-234 | With line i the first match, the agent's forcing replaces line i alone, by its as-written rewrite. |
| GaleraForceSafe.ForcedCorrectedAt | systemcloud/galera.py:229-234 | Corrected version: line i alone is replaced, by its corrected rewrite. |
| GaleraForceSafe.GaleraFileForcedReads | systemcloud/galera.py:204-265 | Corrected version: the forced file still reads as the recorded state. |
| GaleraForceSafe.GaleraFileForcedAsWritten | systemcloud/galera.py:204-265 | As written, the forced file has a last line that `read_grastate` rejects as corrupt line 5. |
| GaleraRecovery.TokenAfter | systemcloud/galera.py:282 | The token is a non-empty run without whitespace that ends the line, after whitespace. |
| GaleraRecovery.RecoveredFromKey | systemcloud/galera.py:282 | A recovered token follows some occurrence of `Recovered position:`. |
| GaleraRecovery.RecoveredFromLater | systemcloud/galera.py:282 | The greedy `.*` takes the last occurrence: no later occurrence is followed by a token. |
| GaleraRecovery.RecoveredLine | systemcloud/galera.py:282 | A line ending in the key, whitespace and a token gives that token, whatever precedes the key. |
| GaleraRecovery.FirstRecoveredAt | systemcloud/galera.py:285 | The first matching line decides. |
| GaleraRecovery.FirstRecoveredNone | systemcloud/galera.py:285-287 | No line matches exactly when no line has a token. |
| GaleraRecovery.RecoverFromLog | systemcloud/galera.py:282-291 | A recovered state is well formed. Every error is a GenericError ending in `see <logfile>`. |
| GaleraRecovery.RecoverReported | systemcloud/galera.py:282-291 | A log whose only matching line reports a well-formed state recovers that state. |
| GaleraAgent.WsrepPeers | systemcloud/galera.py:162-165 | Every peer is a current master or `--NOT-ALLOWED--`. The list is empty exactly when promoting with no masters, and is `--NOT-ALLOWED--` alone for a non-master that is not promoting. |
| GaleraAgent.ConfigLines | systemcloud/galera.py:166-188 | Twelve header lines, then the start position line when the state is truthy, then the two recovery lines when a recovery log is given. |
| GaleraAgent.HeaderLines | systemcloud/galera.py:166-179 | Eight comment lines, `[mysqld]`, the cluster address line and the `init_file` line, twelve in all. |
| GaleraAgent.PositionLines | systemcloud/galera.py:180-183 | One `wsrep_start_position=<state>` line for a truthy state, and none otherwise. |
| GaleraAgent.RecoveryLines | systemcloud/galera.py:184-188 | No lines without a log. With one, `wsrep_recover=on` and a last line ending in the log path. |
| GaleraAgent.ScriptLines | systemcloud/galera.py:189-192 | Two lines: `CREATE USER IF NOT EXISTS <user> ` and `IDENTIFIED VIA unix_socket;`. |
| GaleraAgent.AddressRoundTrip | systemcloud/galera.py:176 | The `wsrep_cluster_address` line reads back as exactly the peers written, in order. |
| GaleraAgent.ClusterAddressPeers | systemcloud/galera.py:162-176 | The address lists the current masters when promoting or when this node is a master, and only `--NOT-ALLOWED--` otherwise. It is empty (bootstrap) only when promoting with no masters. |
| GaleraAgent.HeaderWithoutPosition | systemcloud/galera.py:166-179 | No fixed configuration line sets `wsrep_start_position`. |
| GaleraAgent.RecoveryWithoutPosition | systemcloud/galera.py:184-188 | The recovery lines do not set `wsrep_start_position`. |
| GaleraAgent.StartPositionIff | systemcloud/galera.py:166-188 | Exactly one line gives a start position, and only for a truthy state. It is the thirteenth, `uuid:seqno`. |
| GaleraAgent.StartState | systemcloud/galera.py:369 | `read_grastate() or recover_grastate()`: a truthy file state is used, and otherwise the recovery's result or error. |
| GaleraAgent.ServiceStartOutcome | systemcloud/galera.py:366-373 | A failed read is returned with the state unchanged. Success leaves a state whose UUID is zero or the cluster UUID. |
| GaleraAgent.MasterStartOutcome | systemcloud/galera.py:381-402 | A failed service start changes neither the state nor the cluster UUID. Success records a state read from the file, whose UUID the previous state's UUID matches (it was zero or the same). |
| GaleraAgent.MasterStopOutcome | systemcloud/galera.py:404-411 | An unreadable or missing state file, or any failure, leaves the state as it was. |
| GaleraAgent.ServiceStartChecksCluster | systemcloud/galera.py:366-373 | The chosen state is recorded even when it is refused. Success means the state's UUID is zero or the cluster UUID. |
| GaleraAgent.ServiceStartRecovers | systemcloud/galera.py:369 | A file giving no position makes the node take the recovered state. |
| GaleraAgent.MasterStartKeepsCluster | systemcloud/galera.py:381-402 | A recorded cluster UUID never changes, and an unset one becomes the promoted UUID. Success requires a readable state whose UUID the promotion kept unless it was zero. |
| GaleraAgent.MasterStopKeepsState | systemcloud/galera.py:404-411 | `master_stop` never forgets a state. It fails exactly when stopping or reading fails, and it takes a read state on success. A failure leaves the state as it was. |
| GaleraAgent.ReconfigureCorruptsGrastate | systemcloud/galera.py:159-202 | Promoting with no masters forces Galera's state file, which then reads as `Corrupt <file> on line 5`. Any other reconfigure leaves the file reading as the recorded state. |
| GaleraAgent.DigitRun | systemcloud/galera.py:419 | The length of the leading run of digits: all of them are digits, and the next character is not. |
| GaleraAgent.MasterRunning | systemcloud/galera.py:413-426 | An inactive service is not running. Running requires an active service whose status reports the synced local state. Errors are the query's own, or a GenericError for output that does not match. |
| GaleraAgent.LocalState | systemcloud/galera.py:419-422 | A number is found only when the output, after leading whitespace, starts with `wsrep_local_state` and a space. |
| GaleraAgent.LocalStateReported | systemcloud/galera.py:419-422 | A status line `wsrep_local_state <n>` gives n. |
| GaleraAgent.MasterRunningReported | systemcloud/galera.py:413-426 | A synced node is running. Any other reported state is not, and is not an error. |
| GaleraAgent.GaleraNode.Reconfigure | systemcloud/galera.py:159-202 | The method writes the configuration and script lines. Exactly when promoting with no masters, it forces `safe_to_bootstrap` with the as-written rewrite. |
| GaleraAgent.GaleraNode.ForceGrastate | systemcloud/galera.py:204-234 | The state file becomes its as-written forced version, and a missing file stays missing. |
| GaleraAgent.GaleraNode.ServiceStart | systemcloud/galera.py:366-373 | State and result are those of `StartState` and the cluster check, and the cluster UUID is unchanged. |
| GaleraAgent.GaleraNode.StartFrom | systemcloud/galera.py:369-373 | The same, once the file was read. |
| GaleraAgent.GaleraNode.MasterStart | systemcloud/galera.py:381-402 | It checks the UUID first, then reads the file the start left. The state and cluster UUID are updated only on success. |
| GaleraAgent.GaleraNode.Promoted | systemcloud/galera.py:393-402 | The rest of `master_start` after the state file was read. |
| GaleraAgent.GaleraNode.MasterStop | systemcloud/galera.py:404-411 | A failing stop changes nothing. Otherwise the state is replaced only by a state the file gives. |
| GaleraAgent.GaleraNode.Stopped | systemcloud/galera.py:408-411 | The rest of `master_stop` after the state file was read. |
| OcfEnviron.Instance | ocf/agent.py:152-158 | Unset gives None. Otherwise the result is the text before the first `:`, with no colon in it. |
| OcfEnviron.InstanceOfClone | ocf/agent.py:152-158 | The instance of `name:n` is `name`. |
| OcfEnviron.Param | ocf/agent.py:160-166 | An unset variable gives the default. A set one gives `from_ocf` of its text. |
| OcfEnviron.ParamReadsExport | ocf/agent.py:160-166 | A storable value exported with `to_ocf` reads back as itself. |
| OcfEnviron.MetaInt | ocf/agent.py:168-248 | `CRM_meta_<name>` as an int: None when unset, ValueError when not a decimal. |
| OcfEnviron.MetaBool | ocf/agent.py:168-220 | `CRM_meta_<name>` as a bool: None when unset. |
| OcfEnviron.MetaStr | ocf/agent.py:168-235 | `CRM_meta_<name>` as text: None when unset. |
| OcfEnviron.IsMasterSlave | ocf/agent.py:369-372 | True exactly when `master_max` is set and greater than 0. |
| OcfEnviron.NotifyList | ocf/agent.py:250-256 | A notification list is None when unset and the whitespace-separated words otherwise. |
| OcfEnviron.Future | ocf/agent.py:262-282 | The result is sorted without repeats and holds exactly `(label ∪ add) − remove`. Any unset list raises. |
| Sorting.SortedSet | ocf/agent.py:262-282 | `sorted(set(xs))` is strictly sorted and has exactly the elements of xs. |
| OcfEnviron.FutureIsTheSortedSet | ocf/agent.py:262-282 | The future list is the only strictly sorted list with those elements. |
| OcfEnviron.Current | ocf/agent.py:292-312 | A post-notification gives the future list. Otherwise the label's list is sorted with duplicates kept, and an unset list raises. |
| OcfEnviron.CurrentIgnoresChanges | ocf/agent.py:298-312 | Outside post-notifications the add and remove lists are never read. |
| OcfEnviron.EmptyListIsEmpty | ocf/agent.py:250-256 | An empty list variable decodes to `[]`, not to an error. |
| OcfEnviron.NotificationOf | ocf/agent.py:363-367 | There is a notification exactly when `notify_type` is set and non-empty. |
| OcfEnviron.NotificationPost | ocf/agent.py:292-312 | A post-notification seen through `notification` is exactly the case in which `current_*` uses the future list. |
| OcfAgent.PeerEnviron | ocf/agent.py:133-138 | A peer's environment holds at most the instance variable, and gives the same instance. |
| OcfAgent.PeerParamsDefault | ocf/agent.py:137-138 | A peer agent reads every resource parameter as its default. |
| OcfAgent.ScoreKey | ocf/agent.py:120 | The score is stored as `master-<instance>` on its node with lifetime `forever`. |
| OcfAgent.ScoresPerNode | ocf/agent.py:120 | The agents of different nodes use different score keys. |
| OcfAgent.Agent.constructor | ocf/agent.py:122-128 | The node defaults to `meta_on_node`, and both caches start empty. |
| OcfAgent.Agent.Peer | ocf/agent.py:133-138 | The agent's own node gives `self`. Any other node gives a fresh agent with empty caches and an environment holding only the instance variable. |
| OcfAgent.Agent.Peers | ocf/agent.py:258-320 | Each node maps through `peer`, in order. Distinct peers never share an attribute cache. |
| OcfAgent.Agent.TriggerPromote | ocf/agent.py:374-376 | The score attribute is set to the given score. |
| OcfAgent.Agent.TriggerDemote | ocf/agent.py:378-380 | The score attribute is deleted. |
| OcfAgent.Agent.Score | ocf/agent.py:120 | The score attribute is read through the cache. |
| OcfAgent.PromoteDemoteReadBack | ocf/agent.py:374-380 | After a successful promote the agent reads its score. After a demote it reads None. |
| OcfAgent.PromotionVisibleToOthers | ocf/agent.py:374-376 | Any agent querying the store after a promotion sees the new score. |
| OcfAgent.ActionOf | ocf/agent.py:18-27 | A word names an action exactly when it is one of the eight names in the table. |
| OcfAgent.ParseAction | ocf/agent.py:433-435 | An action runs only for its name alone, or with a `--` before or after it. |
| OcfAgent.ParseActionWord | ocf/agent.py:18-27 | Every action runs for its own name, alone or with `--` before or after it. |
| OcfAgent.ActionWordsDistinct | ocf/agent.py:18-27 | The eight names are distinct. |
| OcfAgent.ParseActionRefuses | ocf/agent.py:433-435 | A command line with no word starting with `-` runs the action when it is a single action name, and is refused with the usage error otherwise. |
| OcfAgent.HelpFirst | ocf/agent.py:433-435 | `-h`, `-hh…`, `--help` or a prefix of it from `--h` on, as the first argument, asks for help whatever follows. |
| OcfAgent.HelpWithEmptyArgument | ocf/agent.py:433-435 | `-h=` crashes argparse. `--help=` is refused, since help takes no argument. |
| OcfAgent.SeparatedHelpRefused | ocf/agent.py:433-435 | After `--`, `-h` is a positional word, and the line is refused. |
| OcfAgent.RefusedBeforeHelp | ocf/agent.py:433-435 | A word that names no action, before `-h`, is refused before help is reached. |
| OcfAgent.HelpAfterExtra | ocf/agent.py:433-435 | An unknown option or a second action is reported only at the end, so `-h` after it still gives help. An unknown option alone is refused. |
| OcfAgent.UnknownLongOption | ocf/agent.py:433-435 | A long option without `=` or space that is no prefix of `--help` is an unknown option. |
| OcfAgent.Completion | ocf/agent.py:436-445 | A returned code exits with it, and None exits 0. An OcfError exits with its own code, and any other exception with ERR_GENERIC. |
| OcfAgent.DispatchExit | ocf/agent.py:424-445 | A refused command line exits 2, help exits 0, and an argparse crash exits 1, all without a reason line. Otherwise the exit is the completion of the named action, and a reason line appears only when that action failed. |
| OcfAgent.DispatchFailureVisible | ocf/agent.py:436-445 | A failed action always exits non-zero with a reason line. |
| OcfAgent.BaseAgentExits | ocf/agent.py:382-422 | A bare agent's monitor gives NOT_RUNNING, meta-data, validate-all and notify give SUCCESS, and start, stop, promote and demote give ERR_UNIMPLEMENTED. |
| OcfAttribute.Key | ocf/attribute.py:16-116 | The store name is the attribute name under its scheme. A per-node attribute adds its node and lifetime, and a cluster-wide one neither. |
| OcfAttribute.KeysDistinguishNames | ocf/attribute.py:16-116 | Under one naming scheme, attributes with different names never share a key. |
| OcfAttribute.GetStep | ocf/attribute.py:20-27 | A get never writes the store or other entries. A cached entry is returned as is. A successful read is cached, and a failed one changes nothing. |
| OcfAttribute.SetStep | ocf/attribute.py:29-32 | Only the attribute's own entry changes. It is cached as the written value exactly when the write succeeded, which needs the key not to fail. |
| OcfAttribute.DeleteStep | ocf/attribute.py:34-37 | Only the attribute's own entry changes. It is cached as None exactly when the delete succeeded. |
| OcfAttribute.Get | ocf/attribute.py:20-27 | Cache and store change exactly as `GetStep` says: a cached entry is returned, otherwise the store is queried and the result cached. |
| OcfAttribute.Set | ocf/attribute.py:29-32 | The entry is evicted, the store updated, and the written value cached on success. |
| OcfAttribute.Delete | ocf/attribute.py:34-37 | The entry is evicted, the store key deleted, and None cached on success. |
| OcfAttribute.GetQueriesOnce | ocf/attribute.py:20-27 | The first get queries the store with the attribute's type and default. A second get returns the same value without querying. |
| OcfAttribute.SetThenGet | ocf/attribute.py:29-32 | After a successful set, get returns exactly the value written. |
| OcfAttribute.DeleteThenGet | ocf/attribute.py:34-37 | After a successful delete, get returns None and not the default. |
| OcfAttribute.DeleteThenFreshGet | ocf/attribute.py:20-37 | An agent with an empty cache reads the default after that delete. |
| OcfAttribute.FailedWriteEvicts | ocf/attribute.py:29-37 | A failed set or delete leaves no cache entry, so the next get queries again. |
| OcfAttribute.AttributesIndependent | ocf/attribute.py:20-37 | A step on one attribute leaves every other attribute's cache entry unchanged. |
| OcfAttribute.GetKeepsCoherence | ocf/attribute.py:20-27 | Get keeps every cache entry equal to what a query would return. |
| OcfAttribute.SetKeepsCoherence | ocf/attribute.py:29-32 | Set keeps the cache coherent when the value survives the store and no other entry shares its key. |
| OcfAttribute.DeleteKeepsCoherence | ocf/attribute.py:34-37 | Delete keeps the cache coherent for an attribute whose default is None. |
| OcfAttribute.DeleteWithDefaultIncoherent | ocf/attribute.py:23-37 | With a non-None default, a delete leaves the cache (None) disagreeing with a fresh query (the default). |
| OcfParameter.Lookup | ocf/parameter.py:14-20 | Only the parameter's own entry changes. A cached value is returned as is. A successful read is cached, and a failed one caches nothing. |
| OcfParameter.ParameterCache.Get | ocf/parameter.py:14-20 | The cache changes exactly as `Lookup` says: a cached value is returned, and otherwise `param` is read and cached on success. |
| OcfParameter.FirstAccessReadsEnvironment | ocf/parameter.py:17-19 | The first access returns `param(name, type, default)`. |
| OcfParameter.Memoised | ocf/parameter.py:17-20 | Once read, a parameter keeps its value after the environment changes. |
| OcfParameter.FailureNotCached | ocf/parameter.py:17-19 | A failed read caches nothing. |
| OcfParameter.ParametersIndependent | ocf/parameter.py:17-20 | Accessing one parameter leaves every other entry unchanged. |
| Crm.CommandLine | ocf/crm.py:36-41 | The command starts `crm_attribute --quiet --name <name>` and ends with the operation's arguments. |
| Crm.OptionArgsInverse | ocf/crm.py:37-40 | An optional pair reads back from the arguments as written. |
| Crm.ParseOpArgs | ocf/crm.py:41 | The operation arguments read back as the operation. |
| Crm.ParseCommandLineInverse | ocf/crm.py:36-41 | The command line determines its key and operation, whatever strings it holds. |
| Crm.Respond | ocf/crm.py:30-48 | The `crm_attribute` process answers: status 64 for a line it cannot parse, the failing key's answer, and otherwise SUCCESS, except ERR_CONFIGURED for a query of an absent key. A query's output is the value and a newline. |
| Crm.Classify | ocf/crm.py:44-48 | Success gives the output without trailing newlines, and ERR_CONFIGURED gives None. Any other code raises GenericError with the output, or the code when there is no output. |
| Crm.CrmAttribute | ocf/crm.py:30-48 | The classification of the store's answer to the command line. |
| Crm.QueryResult | ocf/crm.py:51-58 | Any result other than the default is a value of the requested type. |
| Crm.Query | ocf/crm.py:51-58 | Absent gives the default, present gives `from_ocf`, and failures raise. The store is unchanged. |
| Crm.WriteOutcome | ocf/crm.py:61-68 | An update or delete raises exactly when its key fails with a code other than ERR_CONFIGURED. |
| Crm.Update | ocf/crm.py:61-63 | The outcome depends only on whether the key fails. The store is updated with `to_ocf(value)` as `UpdateEffect` says. |
| Crm.Delete | ocf/crm.py:66-68 | The outcome depends only on whether the key fails. The key is removed as `DeleteEffect` says. |
| Crm.Cib.Run | ocf/crm.py:42-48 | The store answers the parsed command and applies its effect. |
| Crm.QueryAbsent | ocf/crm.py:45-58 | A missing attribute reads as the default. |
| Crm.QueryFailing | ocf/crm.py:45-58 | A failing key reads as the default for ERR_CONFIGURED, and raises GenericError otherwise. |
| Crm.UpdateThenQuery | ocf/crm.py:51-63 | After a successful update, a query of the same type returns the value. |
| Crm.DeleteThenQuery | ocf/crm.py:51-68 | After a successful delete, a query returns the default. |
| Crm.WritesAreLocal | ocf/crm.py:61-68 | An update or delete changes its own key only. |
| Crm.FailedWritesChangeNothing | ocf/crm.py:61-68 | A failing command leaves the store unchanged. |
| OcfAction.DescriptorDefaults | ocf/action.py:9-15 | `@action()` records no name, interval, timeout or role, and enabled. |
| OcfAction.Decorate | ocf/action.py:9-17 | One descriptor is appended to `func.actions`, the list is created when absent and earlier entries are kept, and the same function is returned. |
| OcfAction.DecorateStacked | ocf/action.py:13-17 | Stacked decorators record their descriptors bottom-first. |
| OcfAction.MultiStateMonitorRecordsSlaveFirst | systemcloud/agent.py:146-147 | The multi-state monitor records Slave (interval 30) before Master (interval 10). |
| OcfAction.ActionRoles.Lookup | ocf/action.py:34-39 | A known role is returned unchanged. A missing one is inserted as `ActionRole(None, None)`. |
| OcfAction.Action.constructor | ocf/action.py:48-53 | The roles are exactly those supplied, or none, and the other fields are as given. |
| Rabbitmq.UnquoteAllErlangNodes | systemcloud/rabbitmq.py:83-85 | Each quoted `'rabbit@<node>'` term reads back as its node. |
| Rabbitmq.ClusterNodes | systemcloud/rabbitmq.py:83-85 | The term is `{[...],disc}`, and `{[],disc}` exactly when no node is given. |
| Rabbitmq.ClusterNodesRoundTrip | systemcloud/rabbitmq.py:83-85 | `{[...],disc}` names exactly the given nodes, in order, when no name holds a comma. |
| Rabbitmq.ConfigLines | systemcloud/rabbitmq.py:87-93 | The five lines written, the last being `SERVER_START_ARGS="-rabbit cluster_nodes <cluster_nodes>"`. |
| Rabbitmq.ClusterIsFutureActive | systemcloud/rabbitmq.py:83-85 | Starting nodes are listed and stopping nodes are not. Every listed node is active or starting. |
| Rabbitmq.ConfiguredClusterNodes | systemcloud/rabbitmq.py:83-92 | The configured cluster names exactly the future active nodes, once each and sorted. |
| Rabbitmq.Validate | systemcloud/rabbitmq.py:99-103 | Notifications off raise ConfiguredError. Otherwise the result is SUCCESS, with no master/slave checks. |
| SystemcloudAgent.Attempt | systemcloud/agent.py:28-37 | A command is logged and either fails with its GenericError, changing nothing else, or takes effect. |
| SystemcloudAgent.ExecuteAppend | systemcloud/agent.py:90-108 | Running two plans in turn runs the second only if the first completed. |
| SystemcloudAgent.MultiValidateOf | systemcloud/agent.py:133-144 | ConfiguredError is raised for not master/slave, notify off, `master_node_max > 1` and `master_max <= 1`, checked in that order. Otherwise the result is SUCCESS. |
| SystemcloudAgent.MultiValidate | systemcloud/agent.py:133-144 | Success is SUCCESS and needs a master/slave resource with notifications on. A resource that is not master/slave is refused first. |
| SystemcloudAgent.Validation | systemcloud/agent.py:72-144 | The single-state agent always validates. Any validation that passes gives SUCCESS. |
| SystemcloudAgent.IsBootstrap | systemcloud/agent.py:193-197 | False whenever masters are listed. True exactly when no master is listed and the node is among those being promoted. |
| SystemcloudAgent.NotifyCheck | systemcloud/agent.py:81-88 | Notify fails unless the notification and its node list are set. |
| SystemcloudAgent.BootstrapPlan | systemcloud/agent.py:203-208 | The plan only writes scores or raises. |
| SystemcloudAgent.PromoteAllPlan | systemcloud/agent.py:210-215 | Every write gives score 100 to a peer other than this node. |
| SystemcloudAgent.StartPlans | systemcloud/agent.py:90-165 | A running master is stopped first, then a running service. The service is started right after reconfiguring, and last. |
| SystemcloudAgent.JoinSteps | systemcloud/agent.py:249-253 | Joining only writes scores or raises. With masters running it writes this node's score. Unreadable masters raise. |
| SystemcloudAgent.EnlistSteps | systemcloud/agent.py:246-256 | The node clears its own score first and marks itself started last, and in between only writes scores or raises. |
| SystemcloudAgent.BootStartPlans | systemcloud/agent.py:241-256 | The bootstrapping start runs the multi-state start, so the service is started before the own score is cleared, and `started` is recorded last. |
| SystemcloudAgent.StopPlans | systemcloud/agent.py:101-108 | A failed validation raises first. Otherwise reconfigure, then stop. The bootstrapping agent then deletes `started`. |
| SystemcloudAgent.PromotePlans | systemcloud/agent.py:167-176 | A running master is stopped first, and the master started right after reconfiguring. The bootstrapping promote adds nothing when not bootstrapping, and raises when `is_bootstrap` does. |
| SystemcloudAgent.BootPromoteSteps | systemcloud/agent.py:258-266 | After the master has started, the bootstrap node only raises or gives score 100 to a peer other than itself. |
| SystemcloudAgent.NotifyPlanShape | systemcloud/agent.py:81-88 | Notify reconfigures last, and raises before it exactly when the notification cannot be logged. |
| SystemcloudAgent.MultiStatus | systemcloud/agent.py:146-157 | A stopped service gives NOT_RUNNING, a running master gives RUNNING_MASTER, and anything else gives SUCCESS. |
| SystemcloudAgent.BootMonitorOutcome | systemcloud/agent.py:217-239 | A failed validation changes nothing. Otherwise an unstarted node is NOT_RUNNING and a started one has the multi-state status. Only a started, running slave without a score changes anything, and that one runs the bootstrap election's plan. |
| SystemcloudAgent.ActionOutcome | systemcloud/agent.py:72-275 | meta-data, validate-all and a non-bootstrapping monitor change nothing. The single-state agent refuses promote and demote with UnimplementedError. Only the multi-state start returns None. |
| SystemcloudAgent.MonitorStatus | systemcloud/agent.py:72-157 | The monitor validates first, then reports running or not, with master status for multi-state agents. |
| SystemcloudAgent.ServiceAgent.Do | systemcloud/agent.py:28-37 | One command changes the agent exactly as `Attempt` says. |
| SystemcloudAgent.ServiceAgent.Then | systemcloud/agent.py:90-108 | One more command extends a completed plan. |
| SystemcloudAgent.ServiceAgent.ResourceStart | systemcloud/agent.py:90-99 | The outcome and new state are those of the single-state start plan. |
| SystemcloudAgent.ServiceAgent.MultiStart | systemcloud/agent.py:159-165 | The outcome and new state are those of the multi-state start plan, and success returns None. |
| SystemcloudAgent.ServiceAgent.TriggerPromoteBootstrap | systemcloud/agent.py:203-208 | The outcome and new state are those of `BootstrapPlan`. |
| SystemcloudAgent.ServiceAgent.Join | systemcloud/agent.py:249-253 | With masters running the node promotes itself. Otherwise it triggers the election, and unreadable masters raise. |
| SystemcloudAgent.ServiceAgent.BootStart | systemcloud/agent.py:241-256 | The outcome and new state are those of the bootstrapping start plan. |
| SystemcloudAgent.ServiceAgent.Enlist | systemcloud/agent.py:246-256 | The node clears its own score, joins, then marks itself started. |
| SystemcloudAgent.ServiceAgent.ResourceStop | systemcloud/agent.py:101-108 | The outcome and new state are those of the validated stop plan. |
| SystemcloudAgent.ServiceAgent.BootStop | systemcloud/agent.py:268-275 | The stop plan, then `started` is deleted. |
| SystemcloudAgent.ServiceAgent.MultiPromote | systemcloud/agent.py:167-176 | The outcome and new state are those of the promote plan. |
| SystemcloudAgent.ServiceAgent.TriggerPromoteAll | systemcloud/agent.py:210-215 | The loop over peers runs `PromoteAllPlan`. |
| SystemcloudAgent.ServiceAgent.BootPromote | systemcloud/agent.py:258-266 | The promote plan runs, then the bootstrap node promotes all peers. |
| SystemcloudAgent.ServiceAgent.Demote | systemcloud/agent.py:178-184 | The outcome and new state are those of the demote plan. |
| SystemcloudAgent.ServiceAgent.Notify | systemcloud/agent.py:81-88 | The outcome and new state are those of the notify plan. |
| SystemcloudAgent.ServiceAgent.ResourceMonitor | systemcloud/agent.py:72-79 | Validation, then SUCCESS or NOT_RUNNING. Nothing changes. |
| SystemcloudAgent.ServiceAgent.MultiMonitor | systemcloud/agent.py:146-157 | The result is `MultiStatus` after validation, and nothing changes. |
| SystemcloudAgent.ServiceAgent.BootMonitor | systemcloud/agent.py:217-239 | An unstarted node is NOT_RUNNING. On SUCCESS with no score it retries the election and ignores its errors. |
| SystemcloudAgent.ServiceAgent.Run | ocf/agent.py:436-438 | The action `dispatch` names runs with exactly the outcome `ActionOutcome` gives for the agent's kind. |
| SystemcloudProperties.ExecuteOk | systemcloud/agent.py:90-108 | A plan completes exactly when it raises nothing and no command fails. It then logs all its commands and builds their state. |
| SystemcloudProperties.ExecuteErr | systemcloud/agent.py:90-108 | A failed plan failed on one of its own steps. |
| SystemcloudProperties.LogExtends | systemcloud/agent.py:90-108 | Commands are only ever appended to the log. |
| SystemcloudProperties.FirstCommand | systemcloud/agent.py:90-108 | The first command issued is the plan's first step. |
| SystemcloudProperties.PromoteAllScores | systemcloud/agent.py:210-215 | Every other peer gets score 100. The agent's own score and all other nodes are untouched. |
| SystemcloudProperties.ReplayResourceStart | systemcloud/agent.py:90-99 | The single-state start leaves the service running and nothing else changed. |
| SystemcloudProperties.ReplayMultiStart | systemcloud/agent.py:159-165 | The multi-state start leaves a running slave and nothing else changed. |
| SystemcloudProperties.ReplayJoin | systemcloud/agent.py:249-253 | Joining writes score 100 to this node when a master runs, otherwise to the elected node, and nothing else. |
| SystemcloudProperties.ReplayEnlist | systemcloud/agent.py:246-256 | The node is started, its own score cleared before joining, and the join's scores written. |
| SystemcloudProperties.ReplayStop | systemcloud/agent.py:101-108 | A validated stop leaves the service stopped and nothing else changed. |
| SystemcloudProperties.ReplayBootStop | systemcloud/agent.py:268-275 | The bootstrapping stop also forgets `started`. |
| SystemcloudProperties.ReplayPromote | systemcloud/agent.py:167-176 | Promote leaves the master running and nothing else changed. |
| SystemcloudProperties.ReplayDemote | systemcloud/agent.py:178-184 | Demote leaves the master stopped and nothing else changed. |
| SystemcloudProperties.ReplayBootPromote | systemcloud/agent.py:258-266 | The master runs, and the bootstrap node gives every other peer score 100. No other score changes. |
| SystemcloudProperties.ExecuteStopsAt | systemcloud/agent.py:90-108 | Nothing after the first failing step is issued. |
| SystemcloudProperties.JoinUnreadable | systemcloud/agent.py:249 | Unreadable master lists make the bootstrapping start raise that error. |
| SystemcloudProperties.PromoteUndecided | systemcloud/agent.py:264 | When `is_bootstrap` raises, the bootstrapping promote raises that error. |
| SystemcloudProperties.BootStartReplay | systemcloud/agent.py:241-256 | The bootstrapping start completes only when the masters could be read, and leaves a started, running slave. |
| SystemcloudProperties.StartLeavesSlave | systemcloud/agent.py:90-256 | A successful start leaves a running slave. For the bootstrapping agent the node is also started, with the join's scores. |
| SystemcloudProperties.StartThenMonitor | systemcloud/agent.py:72-256 | A validated monitor right after a successful start reports a running slave. |
| SystemcloudProperties.StopThenMonitor | systemcloud/agent.py:72-275 | A successful stop leaves the service stopped. A monitor after it reports NOT_RUNNING and changes nothing. |
| SystemcloudProperties.ResourceStopOutcome | systemcloud/agent.py:101-108 | Stop completes only once validated, and changes nothing but the service. |
| SystemcloudProperties.BootStopOutcome | systemcloud/agent.py:268-275 | The bootstrapping stop completes only once validated, and leaves the node unstarted and the service stopped. |
| SystemcloudProperties.BootPromoteOutcome | systemcloud/agent.py:258-266 | Promote completes only when `is_bootstrap` is decidable. It leaves the master running and the bootstrap node's peers promoted, and no other score changes. |
| SystemcloudProperties.MultiPromoteOutcome | systemcloud/agent.py:167-176 | The multi-state promote leaves the master running and nothing else changed. |
| SystemcloudProperties.PromoteThenMonitor | systemcloud/agent.py:146-266 | The single-state agent refuses promote. For the others, a validated monitor of a running (and, when bootstrapping, started) node then reports RUNNING_MASTER. |
| SystemcloudProperties.MultiPromotedMonitor | systemcloud/agent.py:146-176 | A multi-state promote followed by a monitor reports RUNNING_MASTER. |
| SystemcloudProperties.BootPromotedMonitor | systemcloud/agent.py:217-266 | A bootstrapping promote followed by a monitor reports RUNNING_MASTER. |
| SystemcloudProperties.DemoteThenMonitor | systemcloud/agent.py:146-184 | The single-state agent refuses demote. For the others, a validated monitor then reports a running slave. |
| SystemcloudProperties.StartStopsAnomalyFirst | systemcloud/agent.py:90-165 | A running master is stopped first, then a running service, before anything is reconfigured. |
| SystemcloudProperties.BootstrapEffects | systemcloud/agent.py:203-208 | A score is written to the elected node only, and only when one is elected. When one is, the write is issued, and the score is set unless that write fails. Otherwise nothing changes. |
| SystemcloudProperties.BootMonitorEffects | systemcloud/agent.py:217-239 | The status does not depend on the election. The only change besides the log is the elected node's score, and only for a started slave without a score. |
| SystemcloudProperties.BootMonitorPromotesElected | systemcloud/agent.py:228-238 | On a started, running slave without a score, the monitor reports SUCCESS, issues the elected node's score write, and sets that score unless the write fails. |
| SystemcloudProperties.NotifyOutcome | systemcloud/agent.py:81-88 | Notify completes exactly when the notification and its list are set and reconfiguring succeeds. It changes nothing else. |
| SystemcloudProperties.FailedStopOutcome | systemcloud/agent.py:159-165 | When stopping an anomalous master fails, start issues nothing more. |
| SystemcloudProperties.FailedStopExits | systemcloud/agent.py:28-37 | `dispatch` then exits ERR_GENERIC with the failed command's output as the reason. |

## Left out

- External commands are not run. The outcomes of `systemctl`, `mysql` and `crm_attribute`
  are parameters: a `failures` map of failing commands, a `Cib` store with failing keys, and
  the status output. `ClusterResourceManager.all_unames` (ocf/crm.py:23-27), which reads
  the output of `crm_mon --as-xml`, is not modelled. The agents' `all_unames` and
  `all_peers` (used at systemcloud/galera.py:172 and :323 and systemcloud/agent.py:213) are
  not defined in the files of this model. The peer list is a parameter.
- File I/O is reduced to file contents given as strings or absent. `open`, `fsync`,
  `fchmod`, permission bits and I/O errors other than a missing file are not modelled.
- `delete_empty_gvwstate`, which stats and unlinks a file, is not modelled.
- `recover_grastate` calls `reconfigure`, starts and stops the service, and names its log
  with `uuid4()`. Those steps are not modelled. The log file's name and contents are
  parameters, and `GaleraRecovery.RecoverFromLog` models the scan and parse only.
- `datetime.now()` is a string parameter `now`. Logging, syslog and the text argparse prints
  for help and for usage errors are not modelled. A refused command line exits with
  argparse's status 2, and help with 0.
- OcfAgent.ParseAction: argparse is modelled only as far as this parser uses it: one
  positional `action` with its choices and the automatic `-h`/`--help`. Option prefixes,
  combined short flags, `--`, `=` arguments and negative-number words are covered.
  Features this parser does not enable, such as `fromfile_prefix_chars`, are not.
- `service_is_running` of the Galera agent (the `started` attribute) and `mysql_exec` are
  not modelled as such. `GaleraAgent.MasterRunning` takes the activity flag and the status
  output, or the error text, as inputs.
- Python's `UUID()` constructor is reduced to the spellings accepted by
  `GaleraState.ValidUuid`: hex digits with hyphens and braces. Its other accepted forms,
  such as a `urn:uuid:` prefix, are not modelled.
- OcfTypes.IntFromOcf: `int()` is modelled as `PyInt_FromString` reads a string without a
  NUL character: whitespace, an optional sign, whitespace again, decimal digits and
  trailing whitespace. A number too wide for a machine word goes to `PyLong_FromString`,
  which accepts the same forms, so the model's integers are unbounded. A value holding a
  NUL character is not modelled. For such a value CPython either reports "null byte in
  argument for int()" or quotes only the text before the NUL. Environment variables cannot
  carry a NUL, and neither can the XML in which the cluster stores its attributes.
- SystemcloudAgent.World: the service unit (`running`) and the master unit (`master`) are
  modelled as two independent units, as in an agent that overrides `master_service`. By
  default `master_service` is `self.service` (systemcloud/agent.py:115-118), so
  `master_stop` also stops the service, and `action_start` then re-reads
  `service_is_running` (systemcloud/agent.py:93 after :162-164) before deciding on its own
  anomalous stop. The Galera agent's `master_stop` stops the service unit itself
  (systemcloud/galera.py:404-406), while the model's `StopMaster` leaves `running` as it is
  and `StopService` leaves `master` as it is. SystemcloudAgent.StartPlans,
  SystemcloudProperties.StartLeavesSlave, StartThenMonitor, StartStopsAnomalyFirst,
  ResourceStopOutcome, BootStopOutcome, StopThenMonitor, ReplayStop and ReplayMultiStart
  therefore hold for distinct units only.
- Descriptors accessed on the class rather than an agent return the descriptor itself
  (ocf/parameter.py:14-16, ocf/attribute.py:21-22). The model only covers access on an
  agent.
- The static metadata XML, `description`, `__repr__`, `name`, and the packaging modules
  are not modelled.
- Cross-node concurrency is not modelled. Each action runs alone against one store snapshot.
- SystemcloudAgent.ServiceAgent: the bootstrapping agent's `choose_bootstrap` result is a
  constant of the agent (`election`). The Galera election is modelled separately in
  `GaleraElection.ChooseBootstrap`, and the connection between the two is not proved.
- SystemcloudAgent.BootMonitorOutcome: reading the `started` and `score` attributes inside
  an action is assumed to succeed. In the agent a failing `crm_attribute` query there
  raises GenericError; in the model `World` holds them as plain maps. Writes and deletes
  are commands of the plans and can fail.
- SystemcloudAgent.ServiceAgent.BootMonitor, SystemcloudProperties.StopThenMonitor: the
  same assumption about reading `started` and `score`.
- GaleraAgent.GaleraNode: the `state` and `clusterUuid` fields stand for the `state` and
  `cluster_uuid` attributes. Their reads and writes are assumed to succeed, and so are the
  reads of the peers' `state` in `GaleraElection.Report`.
- SystemcloudAgent.ActionOutcome: the concrete agents are not composed with their classes.
  RabbitMQ's own validation (`Rabbitmq.Validate`) and reconfiguration are modelled apart,
  not plugged into the plans. The Galera agent's `service_is_running`, which reads the
  `started` attribute, is not reflected in `World.running`.
- OcfAttribute.GetStep: the attribute and parameter caches are keyed by the descriptor's
  value, while Python keys them by the descriptor object. Two descriptors with equal fields
  would share an entry in the model. No two descriptors declared in the source are equal.
- OcfAttribute.SetKeepsCoherence: coherence is proved only under three conditions. The
  value's encoding must read back, which excludes a list item with a space and a string
  ending in a newline that `rstrip` would drop. No other cached attribute may share the
  key. A failure of the write must not be ERR_CONFIGURED, because `crm.update` treats that
  code as success and the cache then holds a value the store never received.

## Findings

| source | as written | input that shows it | evidently intended | confidence | as-written member | corrected member |
|---|---|---|---|---|---|---|
| systemcloud/galera.py:226-228 | `\s*$` also consumes the line's newline, and the whole match is replaced by `'1'.ljust(len(match))`. The key and the newline are lost, and the next line would be merged into this one. | Galera's `grastate.dat` ending in `safe_to_bootstrap: 0\n`: the last line becomes `1` and 20 spaces, and `read_grastate` then raises "Corrupt ... on line 5". | Replace only the value with `1` padded to its length, keeping the key and the newline, so the file reads as `safe_to_bootstrap: 1`. | not executed | GaleraForceSafe.GaleraFileForcedAsWritten | GaleraForceSafe.GaleraFileForcedReads |
| systemcloud/galera.py:340 | `ConfiguredError("No peers match cluster UUID %s", uuid)` passes the UUID as a second exception argument, so `str(e)` is the tuple's repr and the `%s` stays unfilled. | Cluster UUID `u` recorded and no peer on it: the reason reads `('No peers match cluster UUID %s', 'u')`. | The message `No peers match cluster UUID u`. | not executed | GaleraElection.NoPeersReasonAsWritten | GaleraElection.NoPeersReason |
