# Verification model of the WebRTC data-channel transport stack

This project models the parts of the repository that decide what two peers say to
each other and which states their transports announce, and proves that these parts
do what their documentation says, or exactly when they do.

- **Session descriptions** (section 5 of RFC 8866, groups and mids as in RFC 5888).
  `Sdp` holds the line-driven parser and the printer as functions, over real text:
  lines, ASCII-whitespace tokens, trimming, decimal numbers. `Descriptions` holds the
  object the repository updates in place, with its loops, proved against those
  functions. `RoundTrip` and `Canonical` say what printing keeps and exactly when
  parsing gives it back, `FixedPoint` exactly when the printed text prints as itself.
  `Overrides`, `ApplicationRules` and `CandidateRules` say, for every text, which line
  decides which field, and exactly which texts do not parse, in terms of the lines
  alone. `CandidateLists` and `Builder` cover the builder calls, `OfferAnswer` a
  negotiation through text and the pinned fingerprint.
- **Candidate lines, fingerprints, server URLs.** `Candidates`, `Fingerprints`,
  `Utf8`, `Percent`, `Url` and `UrlInverse` hold the codecs and their inverses.
- **The transports.** `Ice`, `Dtls`, `Sctp` are state machines whose steps are the
  atomic operations and lock-held blocks of arbitrarily many calls; a schedule says
  which call begins or steps next and what OpenSSL and ICE answer. A call made from
  inside a handler is a call of its own, so re-entrant use is among the schedules.
  `Ledgers` counts state writes and handler calls. `DtlsClosed` says when Closed is
  left, `DtlsOutcomes` what the answers of OpenSSL and ICE must lead to. `Stack` puts the
  layers and their handlers on top of each other, `StackHooks` says what the hook on
  DTLS does for SCTP, `IceStacks` what libjuice's reports do to DTLS. `Drain` is the
  outbound queue. `Sctp.SctpTransport`, `Ice.Bridge` and `DtlsBridge.Bridge` are
  the objects themselves, for calls that do not overlap, proved to make the machine's
  steps, with their effects stated on their own fields.

Where a claim of the code's documentation is false in general, the code is kept, an
input or a schedule shows the failure, and the exact condition is proved:

- A closed ICE or DTLS transport can leave Closed exactly if some call is past its
  closed check with its write to come (`Ice.LeavesClosedExactly`, `Ice.ClosedIsLeft`,
  `DtlsClosed.LeavesClosedExactly`, `DtlsClosed.ClosedDuringDrive`), although the comment
  at src/ice_transport.rs:802-804 calls the state pinned at Closed.
- A closed ICE transport can still call `on_data` exactly if a datagram is past the
  closed check (`Ice.DeliversAfterCloseExactly`), although src/ice_transport.rs:691-692
  says that it is no longer invoked.
- A closed SCTP transport can come to rest associated exactly if a call is about to set
  the flag or set it after it was cleared (`Sctp.GoesStaleExactly`,
  `Sctp.AssociatedExactly`, `Sctp.OverlapLeavesAssociated`).
- Printing and parsing preserve a description exactly if it is well-formed
  (`Canonical.RoundTripExactly`), and a text with token mids prints as itself exactly if
  its sections are bundled and its candidates stay distinct
  (`FixedPoint.PrintsAgainExactly`); `FixedPoint` holds a failing text for each part.

## Model

| member | source | states |
|---|---|---|
| RoundTrip.ParsePrinted | src/description.rs:584-1004 | for every description of the right shape, whatever its mids and candidates, parsing the printed text succeeds and gives what printing keeps, with the bundle group that the printed mids and sections yield and without candidates that collide in canonical text |
| RoundTrip.BundleSurvives | src/description.rs:819-830 | for every description the bundle group comes back unchanged if and only if it names every section and consists of tokens followed by the sections' blank mids in section order |
| RoundTrip.NamedMidsReturn | src/description.rs:819-830 | where no mid in the group is blank, that means tokens that name every section |
| RoundTrip.PrintThenParse | src/description.rs:584-1004 | the round trip: a well-formed description comes back except for its type, candidates of other mids and the spelling of resolved addresses; other sections character for character; both ends of line |
| Canonical.ParsedShape | src/description.rs:750-973 | every text that parses gives a description of which every part reads back as it is printed, with candidates that differ as parsed; in canonical text they may still collide |
| Canonical.StepKeeps | src/description.rs:760-970 | the loop invariant of the parser: each line keeps description, open section and copied section in shape |
| Canonical.RoundTripExactly | src/description.rs:584-1004 | for every description: parsing the printed text gives back what printing keeps if and only if it is well-formed: parts that read back, candidates that stay distinct, a bundle group that returns |
| Canonical.RoundTripOfNamedMids | src/description.rs:584-1004 | where no mid in the group is blank: if and only if parts read back, candidates stay distinct, every section is bundled and every mid is a token |
| Canonical.NormalPrintsSame | src/description.rs:584-725 | what printing keeps of a description prints the same text |
| FixedPoint.PrintsAgainExactly | src/description.rs:584-1004 | for every text that parses with token mids, the printed text parses again, and prints as itself if and only if every section is bundled and the candidates stay distinct |
| FixedPoint.PrintParsePrint | src/description.rs:584-1004 | the fixed point where it holds |
| Canonical.GroupFirstBundles | src/description.rs:819-830 | if group attributes come before the media sections, every section's mid ends up in the bundle group |
| FixedPoint.CanonicalForm | src/description.rs:750-1004 | with group attributes before the media sections, the candidates alone decide whether the text is a fixed point |
| FixedPoint.SpaceInMidMultiplies | src/description.rs:603-611 | a text whose mid has a space: its group has three entries once parsed and five after one round, and the printed texts differ |
| FixedPoint.LateGroupPrints | src/description.rs:819-830 | a text with a group attribute inside the application section: it parses, drops the mid of the section before it, and does not print as itself |
| FixedPoint.LateGroupUnbundles | src/description.rs:819-830 | such an attribute unbundles any section stored before it |
| FixedPoint.PortSpellingsPrint | src/candidate.rs:274-325 | a text with two spellings of one port: two candidates once parsed, one after a round, and the printed texts differ |
| FixedPoint.PortSpellingsMerge | src/candidate.rs:274-325 | two candidates that differ in the spelling of a port are equal in canonical text |
| Descriptions.Description.constructor | src/description.rs:354-374 | a new description, with the session id given |
| Descriptions.Description.SetApplication | src/description.rs:520-531 | updating in place gives the specified value: old mid out, new mid first |
| Descriptions.Description.ApplicationOrCreate | src/description.rs:534-539 | creates only when absent |
| Descriptions.Description.AddCandidate | src/description.rs:557-563 | hints the mid and inserts unless an equal candidate is there |
| Descriptions.Description.SetFingerprint | src/description.rs:458-461 | stores the upper-case value |
| Descriptions.Description.GenerateSdp | src/description.rs:584-661 | the buffer-pushing printer writes exactly the specified text |
| Descriptions.Description.WriteApplication | src/description.rs:663-725 | the application section, line by line |
| Descriptions.Description.FlushSection | src/description.rs:975-1004 | closing a section stores it and bundles its mid |
| Descriptions.Description.Attribute | src/description.rs:804-953 | one attribute line changes object and open section as specified |
| Descriptions.Description.ParseInto | src/description.rs:750-973 | the whole loop, with its mutable locals, computes the specified parse of the text into the object, or the error |
| Descriptions.Description.Parse | src/description.rs:377-383 | parsing into a new object |
| Overrides.FirstSectionOverrides | src/description.rs:844-870 | for every text that parses: ufrag and pwd are those of the last line about them in the first media section, if that is an application section and has one, otherwise of the first line outside copied sections, otherwise absent; the same for the fingerprint among the values that can be read as one |
| Overrides.LastSetupDecides | src/description.rs:871-878 | the role is active, passive or neither as the last setup line outside copied sections says |
| Overrides.FirstOptionsDecide | src/description.rs:835-843 | the ICE options are the items of the first such line outside copied sections |
| Overrides.AnyLineSetsFlags | src/description.rs:831-898 | either flag is set if and only if some line outside copied sections names it |
| Overrides.LastOriginDecides | src/description.rs:791-802 | user name, session id and version are those of the last origin line, in any position, that has so many parts |
| Overrides.FingerprintReads | src/description.rs:844-858 | a value is read as a fingerprint exactly when its first token is an algorithm in any case and a second follows, which is put in upper case |
| Overrides.FailsExactly | src/description.rs:879-925 | a text fails to parse if and only if some line outside copied sections is a candidate that cannot be read, or in an application section a port or size that cannot |
| ApplicationRules.LastApplicationDecides | src/description.rs:765-945 | for every text that parses: the application is that of the last application section; the last line in it about mid, port, size or direction decides that field; with no mid line the mid is the section number |
| CandidateRules.CandidatesByLine | src/description.rs:879-894 | for every text that parses: the candidates are the first of each (foundation, node, service) in line order, each under the mid in force at its line: the section's last mid so far or its number, before any section the first of the last group or "0" |
| Builder.EveryBuild | src/description.rs:520-563 | over every sequence of builder calls on a new description: no duplicate in the bundle group, the application's mid in it, and candidates exactly the first offers of each (foundation, node, service), in order |
| Builder.SetApplicationKeeps | src/description.rs:520-531 | setting an application keeps the bundle group sound and replaces exactly one mid |
| Builder.NewMidGoesFirst | src/description.rs:520-531 | the new mid stands first unless the group has it, the old one is gone, the others keep their order |
| Builder.HintedCandidateIsWritten | src/description.rs:481-563 | a candidate without a mid gets the application's, wherever that stands in the group, and is written in its section; without an application the first of the group, or "0" |
| OfferAnswer.IceTransport.GetLocalDescription | src/ice_transport.rs:461-499 | the local description: the user name fragment and the password that the agent's fragment holds, each on its own field; role, mid and options; an offer is always actpass; or the agent's error |
| OfferAnswer.IceTransport.SetRemoteDescription | src/ice_transport.rs:512-542 | the role is resolved once, the bundle mid recorded, the printed text handed to the agent, also when the agent then refuses it; nothing changes when closed |
| OfferAnswer.ExtractCredsLoop | src/ice_transport.rs:893-905 | ufrag is what the last line starting with `a=ice-ufrag:` says, pwd what the last line starting with `a=ice-pwd:` says, each absent without such a line |
| OfferAnswer.ExtractsExactly | src/ice_transport.rs:893-905 | extraction gives exactly the credentials that the fragment's lines hold |
| OfferAnswer.LocalIsWellFormed | src/ice_transport.rs:461-499 | local descriptions are well-formed, whatever the agent's fragment says |
| OfferAnswer.LocalText | src/description.rs:584-690 | the text of a local description, line by line |
| OfferAnswer.TextDelivers | src/description.rs:663-690 | sent as text, a local description delivers role, mid and the credentials that the fragment holds |
| OfferAnswer.Negotiation | src/ice_transport.rs:461-542 | for fragments that hold given credentials: an actpass offerer and an answerer in any role end with one Active and one Passive, one mid, the other's ufrag as ufrag and pwd as pwd, and roles that no later remote description changes |
| OfferAnswer.Exchange | src/ice_transport.rs:461-542 | the same, carried out on two transport objects |
| OfferAnswer.PinThroughSdp | src/dtls_transport.rs:646-682 | a fingerprint in any case, set, printed and parsed, accepts a peer digest exactly when the digests are equal |
| Candidates.CandidateRoundTrip | src/candidate.rs:201-325 | whatever line parses, its printed form parses again under the same mid, prints the same, and keeps every field but the spelling of a resolved address and port |
| Candidates.ParseOfPrint | src/candidate.rs:201-325 | reading a printed candidate under any mid gives its canonical form |
| Candidates.ParsedIsPrintable | src/candidate.rs:201-284 | everything the parser returns can be printed and read back |
| Candidates.ParsedKinds | src/candidate.rs:50-462 | what kind of candidate a parsed line is, by its type token, its transport and its tcptype extension |
| Candidates.FieldsInOrder | src/candidate.rs:227-270 | the fields stand in the order foundation, component, transport, priority, address, port, type, extensions |
| Candidates.PrefixesMakeNoDifference | src/candidate.rs:217-226 | both prefixes are optional before a non-empty body that starts with neither |
| Candidates.EmptyBodyDiffers | src/candidate.rs:201-232 | the excluded body: an empty text is the default candidate, a bare prefix an error |
| Candidates.FindKvMeaning | src/candidate.rs:465-477 | a lookup finds the value after the first even position whose key matches without regard to case |
| Candidates.FindKvAbsent | src/candidate.rs:465-477 | and nothing when no even position matches |
| Candidates.FindKvLoop | src/candidate.rs:465-477 | the iterator loop computes the lookup |
| Candidates.WriteSdp | src/candidate.rs:296-325 | the buffer-pushing printer writes the specified line |
| Candidates.ParseInPlace | src/candidate.rs:201-284 | filling a default candidate field by field computes the specified result, error by error |
| Fingerprints.FormatLoop | src/certificate.rs:152-165 | the pushing loop writes the specified hex pairs |
| Fingerprints.IsValid | src/description.rs:205-220 | the loop accepts exactly the hex pairs of the algorithm's size |
| Fingerprints.ValidMeansSpelling | src/description.rs:205-220 | the index-by-index check accepts exactly the texts that spell a digest |
| Fingerprints.ValidLengths | src/description.rs:152-220 | a valid value has 59, 83, 95, 143 or 191 characters, exactly as its algorithm's token is sha-1, -224, -256, -384 or -512 |
| Fingerprints.FormatIsValid | src/certificate.rs:152-171 | formatting a digest of the algorithm's size gives a valid upper-case value from which the digest is read back |
| Fingerprints.FormatOfDigest | src/certificate.rs:152-171 | every valid upper-case value is the format of the digest it spells |
| Fingerprints.PinAccepts | src/dtls_transport.rs:646-682 | a pin in any case accepts a peer digest of its size exactly when it is the pinned one |
| Fingerprints.AlgorithmOfToken | src/description.rs:150-183 | the algorithm token reads back as the algorithm |
| Fingerprints.NameInAnyCase | src/description.rs:150-183 | an algorithm's name is read in any case, and as no other algorithm |
| Ip.PrintOfParsedIpv4 | src/candidate.rs:274-284 | an IPv4 text that parses prints as itself |
| Ip.ResolveFixed | src/candidate.rs:274-284 | resolving the canonical address and port of a resolution gives the same resolution |
| Utf8.DecodesExactly | src/configuration.rs:611-629 | bytes decode to a text if and only if they are its UTF-8 encoding |
| Percent.PercentDecodeLoop | src/configuration.rs:607-630 | the index loop computes the specified decoding, or the error |
| Percent.PercentDecodeExactly | src/configuration.rs:607-630 | a text decodes to a value if and only if some encoder that escapes at least the percent sign, in either hex case, wrote it for that value |
| Percent.DecodesWhen | src/configuration.rs:607-630 | it succeeds exactly when every percent sign starts a complete two-digit escape and the result is valid UTF-8 |
| Percent.DecodedLength | src/configuration.rs:607-630 | the result is shorter by two bytes an escape |
| Percent.UnescapeInverts | src/configuration.rs:612-628 | unescaping inverts every encoder that escapes at least the percent sign |
| Url.ParseUrlSteps | src/configuration.rs:484-566 | reassigning the rest, with the slash-counting loop, computes the specified split |
| Url.SchemeDecides | src/configuration.rs:199-223 | the scheme decides server type and TLS, and the port when none is given: 5349 for turns, 3478 otherwise |
| Url.NamesServerExactly | src/configuration.rs:199-251 | a URL that splits names a server if and only if its scheme is known, it has credentials exactly for TURN, and its port, if given, is one; which error otherwise |
| UrlInverse.ParseInvertsRender | src/configuration.rs:199-251 | parsing a URL written for a server, with percent-encoded user, password and host, or brackets, any spelling of the port or the default one, and a transport query, returns exactly that server, whatever characters user and password contain |
| UrlInverse.UrlRead | src/configuration.rs:484-603 | the split of a rendered URL gives back each piece, decoded |
| UrlInverse.BracketedTaken | src/configuration.rs:572-588 | a bracketed host comes out bare, with its port |
| UrlInverse.PlainTaken | src/configuration.rs:589-601 | the last colon separates a plain host from its port |
| UrlInverse.TransportQueries | src/configuration.rs:212-223 | each transport query selects its relay; turns is always TLS |
| UrlInverse.EscapeAllDecodes | src/configuration.rs:607-630 | a writer that escapes every byte is inverted for every text |
| UrlInverse.ParsesToExactly | src/configuration.rs:199-251 | the servers that some URL names are exactly the well-formed ones |
| Ledgers.Conservation | src/ice_transport.rs:801-825 | for each value, announcements made plus announcements pending equal the writes of that value |
| Ledgers.StepBalances | src/ice_transport.rs:801-825 | a step that writes, announces or does neither keeps every write announced once or owed by one call |
| Sctp.EveryRun | src/sctp_transport.rs:366-474 | the invariant of every schedule: the writes are a prefix of Connecting, Closed or just Closed, each owed to or announced by one call |
| Sctp.StateOnlyRises | src/sctp_transport.rs:366-474 | under every interleaving the state only moves up New, Connecting, Closed, so Closed is absorbing |
| Sctp.EachAnnouncedAtMostOnce | src/sctp_transport.rs:376-474 | Connecting and Closed are each written and announced at most once |
| Sctp.ClosedAnnouncedOnce | src/sctp_transport.rs:457-474 | if anyone closes then, once every call returned, Closed was announced exactly once and nothing is unannounced |
| Sctp.OpenedAfterClosing | src/sctp_transport.rs:366-390 | after the closing swap Connecting is written only by a call that was then past its closed check |
| Sctp.ConnectConnects | src/sctp_transport.rs:366-405 | if anyone connects then, once every call returned, the state is Connecting and was announced, or the transport was closed |
| Sctp.AssociatedExactly | src/sctp_transport.rs:392-472 | at rest, `associated` says whether the state is Connecting if and only if it was not set after the close had cleared it |
| Sctp.GoesStaleExactly | src/sctp_transport.rs:392-472 | from Closed, the transport can come to rest associated if and only if the flag is set for good already or a call is about to set it |
| Sctp.SerialAssociated | src/sctp_transport.rs:366-474 | when calls do not overlap, `associated` is true exactly in Connecting |
| Sctp.OverlapLeavesAssociated | src/sctp_transport.rs:376-472 | a schedule that leaves a closed transport associated |
| Sctp.AloneIsARun | src/sctp_transport.rs:366-474 | an undisturbed call is a run of the machine |
| Sctp.SctpTransport.constructor | src/sctp_transport.rs:278-294 | a new transport |
| Sctp.SctpTransport.Connect | src/sctp_transport.rs:366-406 | the object's connect makes the machine's steps, with each case's new state |
| Sctp.SctpTransport.Close | src/sctp_transport.rs:457-474 | the object's close makes the machine's steps, with the new state |
| Ice.MapState | src/ice_transport.rs:177-186 | Failed, Connected, Completed and New for exactly the reports Failed, Connected, Completed and Disconnected; never Closed or Disconnected |
| Ice.EveryRun | src/ice_transport.rs:418-883 | the invariant of every schedule of reports, datagrams, gathering, restarts and closes |
| Ice.ReportWrites | src/ice_transport.rs:177-186 | in every schedule, the state that a report writes is the one it names, both ways |
| Ice.WritesAndAnnouncements | src/ice_transport.rs:418-868 | written states and gathering states never repeat a neighbour and end in the current one; announcements made plus pending equal the writes, value by value |
| Ice.ClosedWrittenAtMostOnce | src/ice_transport.rs:700-728 | Closed is written and announced at most once |
| Ice.ClosedAnnouncedOnce | src/ice_transport.rs:700-728 | if anyone closes then, at rest, Closed was written once and announced once |
| Ice.WritesAfterClosing | src/ice_transport.rs:632-728 | after the closing swap the writes by other calls number at most the calls then past their closed check, one a call |
| Ice.AtMostOneLateWrite | src/ice_transport.rs:801-825 | hence at most one with a serial driver and no restart in flight |
| Ice.LeavesClosedExactly | src/ice_transport.rs:632-825 | from Closed, some continuation leaves Closed if and only if some call is past its check with its write to come |
| Ice.ClosedIsLeft | src/ice_transport.rs:801-825 | a schedule that reaches and announces Closed and then becomes Connected |
| Ice.ReceivedAfterClosing | src/ice_transport.rs:870-882 | after the closing swap `on_data` is called only for datagrams that were past the closed check by then, once each |
| Ice.DeliversAfterCloseExactly | src/ice_transport.rs:691-692 | a closed transport can still call `on_data` if and only if a datagram is past the closed check |
| Ice.SerialClosedIsFinal | src/ice_transport.rs:632-825 | when calls do not overlap, Closed is absorbing |
| Ice.AloneIsARun | src/ice_transport.rs:418-868 | an undisturbed call is a run of the machine |
| Ice.Bridge.constructor | src/ice_transport.rs:310-316 | a new bridge |
| Ice.Bridge.OnJuiceState | src/ice_transport.rs:801-825 | a report makes the machine's steps; when open, the state afterwards is Failed, Connected, Completed or New exactly if the report is Failed, Connected, Completed or Disconnected, Checking otherwise; it is written and announced exactly if it changed |
| Ice.Bridge.OnJuiceGatheringDone | src/ice_transport.rs:848-868 | the end of gathering makes the machine's steps: Complete, announced once, unless closed or complete |
| Ice.Bridge.OnJuiceRecv | src/ice_transport.rs:870-882 | a datagram is delivered exactly when the transport is open |
| Ice.Bridge.GatherCandidates | src/ice_transport.rs:418-444 | gathering starts once, is refused when closed, and reports the agent's refusal after the state change |
| Ice.Bridge.RestartIce | src/ice_transport.rs:632-678 | both cells are reset before either handler is called, and each change is announced |
| Ice.Bridge.CloseTransport | src/ice_transport.rs:700-728 | closing makes the machine's steps: Closed, announced unless it was already |
| Dtls.EveryRun | src/dtls_transport.rs:444-888 | the invariant of every schedule |
| Dtls.WritesBounded | src/dtls_transport.rs:444-888 | under every interleaving Connecting, Connected and Closed are written at most once, Failed at most twice, so at most five states, in one of the listed orders |
| Dtls.AfterClosed | src/dtls_transport.rs:778-888 | after Closed come at most Connected, and then Failed |
| Dtls.OneHandlerCallPerWrite | src/dtls_transport.rs:444-888 | each write fires exactly one handler call; at rest the flags agree with the writes |
| Dtls.NothingBeforeTheHandshake | src/dtls_transport.rs:714-815 | Connected, every delivery and every SSL_write come after the handshake flag, and that after the peer was heard; shim and pump go in at most once; the inner lock excludes |
| Dtls.ClosedAnnouncedOnce | src/dtls_transport.rs:584-605 | if anyone closes then, at rest, Closed was announced exactly once |
| DtlsOutcomes.BrokenPumpFails | src/dtls_transport.rs:735-740 | in every schedule, a pump whose handshake breaks, or whose flight ICE refuses, is on its way to fail the transport until the state has been Failed or Closed since that step |
| DtlsOutcomes.FinishedDriveConnects | src/dtls_transport.rs:790-815 | the first drive to finish, with its flight sent, is about to write Connected until the state has been Connected since |
| DtlsOutcomes.CloseNotifyCloses | src/dtls_transport.rs:755-762 | a pump that reads close_notify is on its way to close until the transport is closed; Closed is then written or its writer about to |
| DtlsOutcomes.OutcomesAtRest | src/dtls_transport.rs:714-815 | once every call returned, what each answer leads to was written, and every write announced once |
| DtlsOutcomes.StartedAtRest | src/dtls_transport.rs:444-468 | once every call returned, a started transport has announced Connecting first, or was closed before |
| DtlsOutcomes.HandlerCallsAreRight | src/dtls_transport.rs:444-888 | in every schedule, whoever is about to call the handler names the value of the write it announces |
| DtlsClosed.LeavesClosedExactly | src/dtls_transport.rs:444-815 | from Closed, some continuation leaves Closed if and only if some call got past its closed check and can still see the handshake finish, which needs the peer to have been heard, or a pump past its check to hear it |
| DtlsClosed.CanLeave | src/dtls_transport.rs:444-815 | such a call can be led to write Connected, whoever holds the lock and whichever pump has to feed first |
| DtlsClosed.NothingNewAfterClosing | src/dtls_transport.rs:444-815 | after the closing swap only calls then past their closed check deliver data, seal data or open the handshake |
| DtlsClosed.SerialAnnouncesUpwards | src/dtls_transport.rs:444-888 | when calls do not overlap the announced states are the written ones and strictly increase, so Closed is absorbing and Failed announced at most once |
| DtlsClosed.ClosedDuringDrive | src/dtls_transport.rs:714-805 | a schedule with a close while the pump drives, after the first drive waited for the peer, that reaches such a Closed state |
| DtlsClosed.BoundsAreReached | src/dtls_transport.rs:444-888 | a schedule with five state changes, Failed twice, in which the peer's flight completes the handshake |
| DtlsBridge.StepsAreARun | src/dtls_transport.rs:444-888 | an undisturbed call is a run of the machine |
| DtlsBridge.Bridge.constructor | src/dtls_transport.rs:325-340 | a new bridge |
| DtlsBridge.Bridge.StartHandshake | src/dtls_transport.rs:444-531 | start makes the machine's steps, with each case's new state; it fails exactly when closed, or when its own drive breaks, but not when ICE refuses the first flight |
| DtlsBridge.Bridge.DriveHandshakeLocked | src/dtls_transport.rs:778-815 | one drive: which error the answers give; Connected written and announced exactly if OpenSSL finishes for the first time and the flight was sent; nothing changed otherwise |
| DtlsBridge.Bridge.PumpInbound | src/dtls_transport.rs:714-774 | the pump: when closed, or the flight not taken, nothing changes; a broken handshake or refused flight writes and announces Failed; a finished one Connected; once connected every record before the first that is no data is delivered, and a close_notify there writes and announces Closed |
| DtlsBridge.Bridge.ReadAll | src/dtls_transport.rs:744-773 | the read loop delivers the records before the first that is no data, and says whether that is a close_notify |
| DtlsBridge.Bridge.FailTransport | src/dtls_transport.rs:848-865 | Failed is written and announced unless the state is Failed or Closed |
| DtlsBridge.Bridge.CloseTransport | src/dtls_transport.rs:867-888 | the first close writes and announces Closed; a later one changes nothing |
| DtlsBridge.Bridge.SendData | src/dtls_transport.rs:536-560 | send makes the machine's steps, with the result for each case: closed, not Connected, SSL_write failed, ICE failed, sent |
| Stack.LayersRun | src/dtls_transport.rs:342-384 | in the stack, DTLS and SCTP each make a run of their own machine |
| Stack.BaseCalledOnce | src/dtls_transport.rs:354-496 | over any ICE events and racing starts, every event calls the first handler exactly once unless still on its way; the shim and the pump go in at most once, over the auto-start |
| Stack.StartedBeforeTold | src/dtls_transport.rs:358-377 | when the first handler hears that ICE is up, DTLS has been started, unless it was closed |
| Stack.FailedWithIce | src/dtls_transport.rs:478-489 | once an ICE Failed or Closed event has passed through the shim, DTLS has written Failed or Closed |
| Stack.ToldBeforeFailed | src/dtls_transport.rs:478-489 | the shim lets the first handler hear the event before it fails DTLS |
| Stack.Causality | src/sctp_transport.rs:304-335 | with no explicit start or connect, SCTP Connecting comes after DTLS announced Connected, after it was written, after an ICE event went up |
| Stack.MarksAreStates | src/sctp_transport.rs:376-405 | the marks that causality speaks of stand for the layers' state writes |
| StackHooks.AnnouncedConnects | src/sctp_transport.rs:304-317 | in every run, if DTLS announced Connected, a step of DTLS began a connect of SCTP |
| StackHooks.ConnectedReachesSctp | src/sctp_transport.rs:304-405 | once DTLS has announced Connected and every SCTP call returned, SCTP is Connecting and has announced it, or was closed |
| StackHooks.ConnectedAtRest | src/sctp_transport.rs:304-405 | with both layers at rest, a DTLS layer that wrote Connected has SCTP Connecting or closed |
| IceStacks.FailedReportFails | src/ice_transport.rs:177-825 | a Failed report that changed ICE's state has, once its handler call through the shim returned, DTLS Failed or Closed written |
| IceStacks.UpReportStarts | src/dtls_transport.rs:354-384 | a Connected or Completed report that changed ICE's state has, once its handler call returned, DTLS started unless closed; at rest DTLS went to Connecting, or only to Closed |
| Drain.DrainLoses | src/dtls_transport.rs:838-844 | a drain loses exactly the last datagram handed over when ICE refuses it, and nothing otherwise |
| Drain.DrainDetermined | src/dtls_transport.rs:819-846 | queue and ICE's answers determine datagrams and rest |
| Drain.Outbound.Run | src/dtls_transport.rs:819-846 | the loop: the queue equals the datagrams in order and the rest, each of 1 to 4096 bytes; nothing remains if all were taken; closed counts as success |
| Drain.Outbound.DrainOnce | src/dtls_transport.rs:819-846 | over the queue's life, everything written was handed over or is queued, and at most one datagram is lost a failed drain |
| Drain.Outbound.Push | src/dtls_transport.rs:782-787 | OpenSSL queues a record at the end |

## Left out

- OpenSSL, BIO allocation and unsafe memory: their results are answers chosen by the schedule, except that no handshake finishes before the peer was heard; the out BIO is a byte queue.
- libjuice, the tokio driver, sockets and STUN/TURN traffic: only the reports they make, in any order.
- The driver's candidate reports, which are gated by the closed flag as its datagrams are.
- Certificate generation and digest computation: a digest is a byte sequence of the algorithm's size.
- The random session id is a parameter.
- IPv6 text forms: an arbitrary canonicaliser whose output is whitespace-free and a fixed point; IPv4 and decimals are exact.
- The section index of the parser does not wrap, and usize has 64 bits.
- Candidates are values, not objects: the repository moves and clones them, so aliasing is not at issue.
- Reading the handler out of its mutex and calling it are one step; whether a handler returns is not modelled, nor a handler that calls back into a lock its caller holds.
- The ICE events of `Stack` are arbitrary, those of any `Ice` run among them (`IceStacks` joins the two at the handler call); `set_callbacks` by others is excluded there.
- The hook on DTLS finds the SCTP transport alive: its weak reference upgrades.
- Builder.EveryBuild: does not cover renaming the application through `application_mut`, which bypasses the bundle group.
- The SCTP data path and `send`, which are stubs in the repository.
- `ProxyServer` and the `Configuration` defaults, reliability parameters, error types, getters, Debug and Display: one-branch facts.
- Logging, MTU constants and the time a handshake takes.
