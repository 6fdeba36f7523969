# A Dafny model of the hosted-channel host

canopus is the host side of bLIP-17 hosted channels: a signed and stored balance that host and client
move by exchanging updates, the links that carry HTLCs between hosted and normal channels, the onions
that route them, the byte formats of the signed state, and the generation-checked store beneath it all.
This project models that logic in Dafny and proves what it keeps over every run.

`dafny verify dfyconfig.toml` checks the whole project. No part of canopus was executed.

| file | models |
|---|---|
| `State`, `StateLaws`, `HtlcIds` | the state manager, its fold, the peer's mirror, confluence, HTLC ids |
| `Channel`, `ChannelLaws`, `ChannelRuns`, `ChannelTheorems` | one channel: handlers as functions, the invariant, every run, what follows from it |
| `Handshakes` | exactly which messages each handler of one channel takes, and what channel, balances and terms then are |
| `Conservation`, `ChannelIds`, `Witness` | conservation whatever the peer does; the ids the host gives, and when one repeats |
| `Forwarding`, `ForwardingLaws`, `HostRuns`, `HostWitness` | all channels and links: offers, settlements, dispatch, recovery, watchdog, and every run of the host |
| `HostSteps`, `LinkRuns` | what parts of handlers do to channels and links; when a link and an HTLC disagree |
| `Effects`, `Offers`, `Commits` | what settlements, failures, watchdog, offers, dispatch, commits and recovery achieve, told without their parts |
| `DispatchLaws`, `Fees`, `ForwardRuns` | what becomes of a committed HTLC of a peer, and what a forward earns over a run |
| `Controller` | the controller object: its methods are proved against the functions above and carry the host invariant |
| `Sphinx`, `SphinxLaws`, `PeelLaws`, `Endian` | onion construction and peeling; exactly which packets and payloads are accepted |
| `Codec`, `CodecLaws`, `LcssCodec`, `LcssLaws` | varints, TLV streams, HTLC bodies, the cross-signed state, its wire form and the bytes a signature covers |
| `Store`, `Concurrency` | the in-memory store, `delete_subtree`, and clients whose single store operations interleave, over the same create and update functions |

How the parts fit: every modelled loop and handler of the source that changes something is a method whose
`ensures` equates its result and the whole new state with a specification function; the lemmas are about
those functions, and the public handlers of the controller also promise the host invariant. A channel
carries logs that no handler reads (an HTLC that the node offers twice is two offers in them): every state the host ever signed for it, every id the host gave to
an HTLC, and the ids that a new state left above its counter. A host carries the log of HTLCs offered to
it and of its answers. The channel invariant (`ChannelLaws.Invariant`) says that stored, proposed and
signed states are backed by the capacity, that the queue folds, and that ids and resolutions do not
repeat. The host invariant (`ForwardingLaws.HostInvariant`) adds that ids are accounted for, that links
and answers belong to distinct offers, and that preimages passed upstream were in time and fit. Invariants
also hold of a host that does nothing, so `Handshakes`, `Effects`, `Offers` and `Commits` say what each handler
does achieve: which HTLC gets which answer, which HTLC is added on what terms, which state is stored, and when.

Where the source does not do what one might expect, there is a lemma at a concrete input and the exact
condition: a shrinking resize can leave a queue that no longer folds (`ChannelTheorems.ResizeCanStrandQueue`,
`ChannelRuns.ResizeFoldsIff`); the host can give one id twice (`Witness.OneIdGivenTwice`,
`ChannelIds.NextIdRepeatsIff`), so that a link can meet an HTLC it was not made for
(`HostWitness.WrongPreimagePassedOn`, `LinkRuns.LinkDisagreesIff`, `HostRuns.PreimagesFitTheirLinks`); a
committed HTLC can be left with nothing waiting for it until a later recovery (`HostWitness.CommittedHtlcIsLost`,
`DispatchLaws.DispatchedUnlessLost`); a peer that reuses an id makes the repair of the queue lose a resolution
(`Witness.ReusedPeerIdIsRepairedAway`, `ChannelRuns.PeerAddKeepsIff`); and a state can encode without decoding
to itself (`LcssCodec.CutOffStateIsLost`, `LcssCodec.LcssRoundTripIff`); and the bytes that are signed do
not say where the incoming HTLCs end (`LcssLaws.DirectionIsNotSigned`, `LcssLaws.MaterialIff`). A comment at src/state.rs:91 says
that a local add goes to the incoming HTLCs; the code puts it into the outgoing ones, and the model follows
the code.

## Model

| member | source | states |
|---|---|---|
| `State.StateManager.LcssNext` | src/state.rs:83-225 | The loop that edits a copy of the state update by update returns exactly the specification fold of the queue, first error included, with counters and block day as the source sets them after the loop |
| `State.StateManager.Apply` | src/state.rs:90-213 | Each of the eight update kinds, with its balance, lookup, preimage and overflow checks in order, has the effect of `Step` |
| `State.StateManager.AddLocal` | src/state.rs:228-230 | Appends one local update and leaves the state alone |
| `State.StateManager.AddRemote` | src/state.rs:233-235 | Appends one remote update and leaves the state alone |
| `State.StateManager.Commit` | src/state.rs:239-242 | Installs a state and empties the queue |
| `State.FoldKeepsHeader` | src/state.rs:214-224 | A fold changes balances, counters and HTLC lists only, and each counter grows by the number of updates of its side |
| `StateLaws.FoldConserves` | src/state.rs:88-213 | Every successful fold keeps local + remote + incoming + outgoing |
| `StateLaws.NoOverflow` | src/state.rs:88-213 | The Overflow error is unreachable from a state whose total fits 64 bits |
| `StateLaws.FoldMirror` | src/state.rs:83-225 | Reversing the fold equals folding the reversed state with every direction flipped, errors included |
| `StateLaws.FoldIsNormal` | src/state.rs:83-225 | Every successful checked 64-bit fold computes the adds-first normal form over unbounded integers, which sees only the two per-side sequences |
| `StateLaws.Confluence` | src/state.rs:83-225 | Any two interleavings of the same local and remote sequences that both fold give the identical state, list order included |
| `StateLaws.PeerComputesMirror` | src/wire/lcss.rs:199-214 | A peer that interleaves the flipped updates in any order that folds computes the mirror of the host's state |
| `StateLaws.FoldIgnoresHeader` | src/state.rs:83-225 | Parameters, block day and signatures influence neither success nor result of a fold |
| `StateLaws.FoldShift` | src/channel.rs:1444-1456 | Moving the local balance by d keeps a folding queue foldable exactly when the lowest balance on the way stays non-negative, and then moves the result by d |
| `Channel.DeduplicateUncommitted` | src/channel.rs:201-226 | The loop with its seen-set keeps exactly the first resolution of each side and id, and every add |
| `ChannelRuns.DeduplicateKeeps` | src/channel.rs:362-379 | Deduplication is the identity on a queue that resolves nothing twice |
| `ChannelRuns.DeduplicateDropsCopy` | src/channel.rs:201-226 | A later copy of a resolution, inserted anywhere, leaves no trace after deduplication |
| `ChannelRuns.DeduplicateRestores` | src/channel.rs:201-226 | Any number of later copies, inserted anywhere into a queue that resolves nothing twice, are all removed: the result is the original queue |
| `ChannelLaws.PushRemoteAddIff` | src/channel.rs:1099-1125 | A covered add of the peer keeps the queue sound if and only if its id is not in use |
| `ChannelLaws.PushLocalAddKeeps` | src/channel.rs:3145-3240 | A covered add of the host under the id it assigns keeps the queue sound |
| `ChannelLaws.PushRemoteResolveKeeps` | src/channel.rs:1207-1272 | A checked resolution by the peer of a committed HTLC keeps the queue sound |
| `ChannelLaws.PushLocalResolveKeeps` | src/channel.rs:2791-2802 | A resolution by the host whose longer queue folds keeps the queue sound |
| `ChannelRuns.OpeningKeeps` | src/channel.rs:799-873 | The opening state update keeps the channel invariant |
| `ChannelRuns.ActiveKeeps` | src/channel.rs:876-971 | Committing the queue keeps the channel invariant |
| `ChannelRuns.OverrideAcceptanceKeeps` | src/channel.rs:974-1060 | Accepting an override keeps the channel invariant |
| `ChannelRuns.PeerAddKeepsIff` | src/channel.rs:1067-1128 | The source does not look at the id of a new HTLC: `handle_update_add` keeps the channel invariant if and only if the channel is not active, the balance does not cover the HTLC, or its id is not in use |
| `Witness.ResolutionReachesIff` | src/state.rs:118-160 | A fulfill of the host is measured against the HTLC it means if and only if no earlier one in the list has its id; otherwise the earlier hash makes it fail with WrongPreimage, and a fail takes out the earlier HTLC |
| `Witness.ReusedPeerIdIsRepairedAway` | src/channel.rs:1095-1125 | What a reused id breaks: a concrete run in which two HTLCs of the peer are committed under one id and both failed; the signed queue folds, and deduplication takes the second resolution away and leads to another state |
| `ChannelRuns.PeerFulfillKeeps` | src/channel.rs:1185-1279 | `handle_update_fulfill` keeps the channel invariant, whatever the verdict on the upstream expiry |
| `ChannelRuns.PeerFailKeeps` | src/channel.rs:1323-1373 | `handle_update_fail` keeps the channel invariant |
| `ChannelRuns.HostResolveKeeps` | src/channel.rs:2773-2954 | Sending a fulfill or fail of the host keeps the channel invariant |
| `ChannelRuns.HostAddKeeps` | src/channel.rs:3197-3276 | Adding an HTLC of the host keeps the channel invariant, whichever of its two messages got through |
| `ChannelRuns.DirectPaymentKeeps` | src/channel.rs:2717-2771 | `send_direct_payment` keeps the channel invariant |
| `ChannelRuns.ReconnectKeeps` | src/channel.rs:594-702 | Reconnecting, with its repair and its signature, keeps the channel invariant |
| `ChannelRuns.LcssKeeps` | src/channel.rs:1707-1778 | Adopting the peer's cross-signed state keeps the channel invariant |
| `ChannelRuns.ProposeOverrideKeeps` | src/channel.rs:1814-1866 | Proposing an override keeps the channel invariant |
| `ChannelRuns.SetChannelKeeps` | src/channel.rs:1523-1700 | `set_channel`, forced or not, keeps the channel invariant |
| `ChannelRuns.ResizeFoldsIff` | src/channel.rs:1444-1474 | After a resize the pending queue still folds if and only if the resize takes no more than the lowest local balance along the queue |
| `ChannelRuns.ResizeKeepsIff` | src/channel.rs:1424-1505 | `handle_resize_channel` keeps the channel invariant if and only if one of its guards refuses (status, agreement of both sides, range, signability) or the resize stays within that bound |
| `ChannelTheorems.ResizeCanStrandQueue` | src/channel.rs:1444-1474 | The source does not check that bound: a concrete sound channel that one resize leaves with a queue that no longer folds |
| `ChannelRuns.EveryEventKeeps` | src/channel.rs:757-2013 | Each of sixteen events keeps the channel invariant, for peers that reuse no id in use and shrink within the bound; the two rules are necessary by the rows above |
| `ChannelRuns.ReachableIsSound` | src/channel.rs:511-591 | Every channel of every run from a new channel satisfies the invariant |
| `Conservation.CapacityIsConserved` | src/channel.rs:557-585 | In every run, even with a peer that reuses ids or shrinks the channel under its queue, the stored state, the proposed override and every state ever signed own exactly the capacity |
| `Conservation.EventBacks` | src/channel.rs:757-2013 | Every event that signatures and counters allow keeps those states backed by the capacity |
| `ChannelTheorems.EveryQueueFolds` | src/channel.rs:2956-2968 | In every run the stored queue folds, deduplication leaves it alone, and no event reports Overflow |
| `ChannelTheorems.QueueNeverFails` | src/channel.rs:2956-2968 | No handler fails on the stored queue; only a resolution of the host can be refused by the fold, and then nothing is stored |
| `ChannelTheorems.IdsStayDistinct` | src/channel.rs:3197-3200 | In every run committed and pending HTLCs of either side never share an id, and the next id the host assigns is among none of its own |
| `ChannelIds.EventMoves` | src/channel.rs:757-2013 | Every event stays put, grows the queue, adds an HTLC under the next id, commits, replaces the state or opens, and signs or stores no HTLC the channel did not know |
| `ChannelIds.MoveKeeps` | src/state.rs:62-69 | Every such move keeps the ids accounted for: given ones are counted, pending or withdrawn, only withdrawn ones were given twice, and every HTLC stored or signed was given its id |
| `ChannelIds.TrackedInEveryRun` | src/channel.rs:3197-3240 | So they are accounted for at every moment of every run |
| `ChannelIds.NextIdRepeatsIff` | src/channel.rs:3197-3200 | At every moment of every run the id the host gives next was given before if and only if an accepted override or an adoption took it back: it installed a counter below that id while the HTLC was pending, or covered by the old counter |
| `ChannelIds.AcceptedOverrideRepeatsIff` | src/channel.rs:986-1022 | After accepting an override proposed against the stored state, the next id repeats one given before if and only if the second pending update of the host is an add, or an earlier installation took that id back |
| `Witness.OneIdGivenTwice` | src/channel.rs:1000-1022 | A concrete run from a new channel in which the host gives id 2 to two HTLCs |
| `ChannelTheorems.StoredStateIsCrossSigned` | src/channel.rs:826-844 | Whenever an event other than a resize replaces the stored state it is a state update or an adoption, and the new state verifies under both keys |
| `ChannelTheorems.CountersAdvance` | src/channel.rs:893-952 | A commit on an active channel and an adoption lower neither counter and raise one |
| `ChannelTheorems.AcceptedOverrideRaisesBothIff` | src/channel.rs:986-1022 | In every run an accepted override raises both counters of the state it replaces by exactly one, if and only if no state of the peer was adopted between its proposal and its acceptance; against the state it was proposed for it always does |
| `ChannelTheorems.ReplayIsLocal` | src/channel.rs:602-684 | What is replayed after a reconnect is exactly the host's part of the queue, in order |
| `ChannelTheorems.PeerAcceptsReplay` | src/channel.rs:602-702 | A peer that folds the replay into its own pending updates in any order that folds computes a state on which the host's signature verifies |
| `ChannelTheorems.ReplayAgreesInEveryRun` | src/channel.rs:602-702 | In every run host-added HTLCs carry the channel id, so the agreement above holds at every moment |
| `Handshakes.OpeningIff` | src/channel.rs:799-873 | An opening channel is established exactly by the peer's signature of the state with fresh counters and no HTLCs, its day off by at most one; the host then countersigns it, and nothing else changes the channel |
| `Handshakes.CommitIff` | src/channel.rs:876-971 | An active channel commits its repaired queue exactly when the message names the counters, today's day and the peer's signature of the state the queue leads to; it then stores that state countersigned and an empty queue, and otherwise keeps only the repair |
| `Handshakes.HonestCommitAgrees` | src/channel.rs:876-971 | Two honest parties agree: a peer that folds both sides' updates in any order that folds and signs the result makes the host store the mirror of the peer's state, on which the host's signature verifies for the peer |
| `Handshakes.CommitShows` | src/channel.rs:893-952 | A state update replaces the state of an active channel exactly when it agrees with a queue that is not empty |
| `Handshakes.OverrideIff` | src/channel.rs:974-1022 | A proposed override is accepted exactly by the peer's signature, of today and with its counters, of the proposed state; the channel is then active, without errors and with an empty queue |
| `Handshakes.ProposeOverrideIff` | src/channel.rs:1814-1866 | An override can be proposed exactly for an errored or overriding channel and a host balance up to the capacity; it gives the client the rest, has no HTLCs, moves both counters one further and carries the host's signature |
| `Handshakes.PeerAddIff` | src/channel.rs:1067-1128 | An HTLC of the peer is taken exactly by an active channel in which its balance covers it, and moves its amount from that balance into flight; one not covered is an error of the channel |
| `Handshakes.PeerFailIff` | src/channel.rs:1323-1373 | A failure of the peer is taken exactly by an active or errored channel for a committed HTLC that nothing resolves yet; an empty reason is an error, and the malformed kind is ignored once a delivery was missed |
| `Handshakes.FailureRefunds` | src/channel.rs:1355-1366 | A failure that is taken gives the amount of the first committed HTLC with its id back to the host, and nothing to the peer |
| `Handshakes.FulfillPays` | src/channel.rs:1234-1279 | A fulfill that is taken pays the amount of the first committed HTLC with its id to the peer, and nothing to the host |
| `Handshakes.DirectPaymentIff` | src/channel.rs:2717-2771 | A direct payment is taken exactly by an active channel whose host balance covers it, under the next id; the amount leaves that balance |
| `Handshakes.ReconnectSigns` | src/channel.rs:594-702 | After a reconnect the host has signed, with today's day, the state that the repaired queue leads to |
| `Handshakes.ResizeIff` | src/channel.rs:1424-1474 | A resize that is carried out gives or takes the difference of the capacities to the host's balance alone, sets the in-flight limit and the routing maximum to the new capacity, keeps fees and delta, and is signed; any other changes nothing |
| `Handshakes.ResizeNeedsAuthorization` | src/channel.rs:1424-1521 | No resize goes through without an authorization or above it, and one authorization serves one resize |
| `Handshakes.SetChannelReaches` | src/channel.rs:1523-1700 | A change of parameters that goes through reaches the field of its own name: in the routing policy, and in the proposed state, which gives the client what was asked and the host the rest; fields not named stay |
| `Handshakes.SetChannelIff` | src/channel.rs:1523-1700 | A change goes through exactly for an idle active channel, forced if it concerns the state, or for one with an override proposed, provided minimum, maximum, capacity and the client's share keep their order; otherwise nothing changes |
| `Handshakes.AdoptionIff` | src/channel.rs:1707-1778 | The peer's state is adopted exactly when both signatures verify on it, no counter is lower and one is higher; a wrong signature is recorded as an error under its name |
| `ForwardingLaws.SafeIsTimely` | src/channel.rs:1281-1320 | The test before a settlement implies height + delta below the upstream expiry for a link from a normal channel |
| `ForwardingLaws.GrantedFits` | src/channel.rs:1234-1275 | The preimage of an HTLC that the channel was given is the one its link waits for, unless the id was withdrawn |
| `ForwardingLaws.ResolveForwardKeeps` | src/channel.rs:2624-2679 | Resolving a link keeps the host invariant: one upstream answer at most, the link gone with it |
| `ForwardingLaws.OnFulfillKeeps` | src/channel.rs:1185-1279 | The fulfill of a peer, with the settlement it sets off, keeps the host invariant |
| `ForwardingLaws.RecoverOutgoingKeeps` | src/channel.rs:2182-2218 | Recovery of outgoing HTLCs keeps the host invariant although it writes back data loaded earlier |
| `ForwardingLaws.OnOfferKeeps` | src/channel.rs:3053-3276 | An offered HTLC, answered, refused or linked and added, keeps the host invariant |
| `ForwardingLaws.EnforceKeeps` | src/channel.rs:3316-3394 | A watchdog pass keeps the host invariant |
| `ForwardingLaws.WatchdogClears` | src/channel.rs:3316-3394 | After a pass that returns Ok no visited channel is both active and late |
| `ForwardingLaws.WatchdogClearsAll` | src/channel.rs:3316-3394 | A pass over all channels that returns Ok leaves no active channel with a pending HTLC past its commit deadline or a committed one past its expiry whose link records an upstream expiry |
| `Effects.ResolvingSettles` | src/channel.rs:2624-2650 | A resolution passed through a link reaches exactly the HTLC the link came from: queued under that id in the first hosted channel behind it, if still committed there, or as one `resolve_htlc` call for that offer; the link goes exactly if it passes, no other link or channel changes, and a failed send leaves the link and the stored resolution |
| `Effects.FailingSettles` | src/channel.rs:2652-2679 | Likewise for a failure, which reaches the sender wrapped with the secret of the link, or as it is when there is none |
| `Effects.SafeIff` | src/channel.rs:1281-1320 | The test before a settlement: refused exactly if the height needed overflows, and else passed exactly if the link came from a hosted channel, or its expiry is known, the HTLC has not expired and its expiry plus delta is within it |
| `Effects.FulfillSettles` | src/channel.rs:1185-1279 | A fulfill of a committed HTLC in time is stored with its preimage, and settles exactly the HTLC its link came from with that preimage, in the sense of `ResolvingSettles` |
| `Effects.FulfillTooLateIsRefused` | src/channel.rs:1234-1256 | Without time left the same fulfill settles nothing, stores nothing and errors the channel |
| `Effects.OtherFulfillsAreIgnored` | src/channel.rs:1196-1239 | Every other fulfill changes nothing |
| `Effects.ReportSettles` | src/channel.rs:2681-2715 | A report of the node settles or fails exactly the hosted HTLC that the link came from; a preimage is stored first; anything else changes nothing |
| `Effects.RecoverySettles` | src/channel.rs:2182-2218 | A recovery that reports no error and leaves the channel without one settles, with the known preimage, the HTLC behind the link of every committed HTLC of the host that nothing resolves; and all such HTLCs left time |
| `Effects.RecoveryFaults` | src/channel.rs:2190-2201 | An unresolved HTLC that leaves no time ends the recovery: the loaded data is written back with the error |
| `Effects.WatchdogFailsOne` | src/channel.rs:3319-3391 | A visited active channel with an overdue pending HTLC gets the delivery error and fails one such HTLC upstream with 0x1007, else one with an expired committed HTLC gets the expiry error and fails one with 0x4008, both wrapped and in the sense of `ResolvingSettles`; with neither nothing changes |
| `Effects.WatchdogFails` | src/channel.rs:3316-3394 | Over a whole pass without error: for every active channel that held a late HTLC at its start, the upstream HTLC behind one late HTLC has failed with the code for it, the link is gone and the channel is no longer active |
| `Effects.FailuresAreRelayed` | src/channel.rs:2242-2264 | After a relay without error the links that went are exactly those under ids the peer fails in the committed queue; each answer reached its sender, wrapped, a malformed failure as code and onion hash; every call and update made answers one of them |
| `HostRuns.DispatchIncomingKeeps` | src/channel.rs:2267-2431 | Dispatching a committed HTLC to a hosted or normal channel, or failing it back, keeps the host invariant |
| `HostRuns.StateMessageKeeps` | src/channel.rs:876-971 | A commit together with everything it dispatches keeps the host invariant |
| `HostRuns.RecoverChannelKeeps` | src/channel.rs:2114-2180 | Recovering a channel, on start or on connect and with or without its outgoing HTLCs, keeps the host invariant |
| `HostRuns.PaymentResultKeeps` | src/channel.rs:2681-2715 | A truthful result of an onion sent over a normal channel keeps the host invariant |
| `HostRuns.LearnPreimagesKeeps` | src/channel.rs:1408-1421 | Preimages that a peer replies with, each stored under its own hash, keep the host invariant |
| `HostRuns.InvokeKeeps` | src/channel.rs:462-591 | An invoke, opening or reconciling, keeps the host invariant |
| `HostRuns.EveryHostEventKeeps` | src/channel.rs:462-3394 | Every event of the whole host keeps the host invariant |
| `HostRuns.ReachableHost` | src/channel.rs:462-3394 | Every host of every run satisfies the host invariant |
| `HostRuns.AnsweredAtMostOnce` | src/channel.rs:2624-2679 | In every run each offer gets at most one `resolve_htlc` call, at the place it was offered from; an upstream HTLC that the node offers again is a new offer |
| `HostRuns.PreimagesArriveInTime` | src/channel.rs:1281-1320 | In every run a link settles a normal-channel HTLC with a preimage only while height + delta is below the upstream expiry |
| `HostRuns.PreimagesFitTheirLinks` | src/channel.rs:2624-2650 | In every run a preimage passed upstream hashes to the payment hash of the link, if it came from the channel the link was made for and the id was never withdrawn there |
| `LinkRuns.OfferFitsLinkIff` | src/channel.rs:3202-3232 | The source ignores that the key of a new link is taken: after an accepted offer the link under the key has the payment hash of the added HTLC if and only if there was no link, or one for that hash |
| `LinkRuns.EventGrows` | src/channel.rs:462-3394 | Every event makes links only for an HTLC its channel then holds, or for no hosted channel, and brings no HTLC of the host into a channel without a grant or an adoption |
| `LinkRuns.LinkDisagreesIff` | src/channel.rs:3202-3232 | At every moment of every run, for every committed or pending HTLC of the host: the link under its key waits for another payment hash if and only if a link for another hash held the key when the HTLC was added or adopted, and has stayed since |
| `Commits.CommitDispatchesAndRelays` | src/channel.rs:2221-2265 | A state update that replaces the state without error leaves every HTLC the new state brings queued for a resolution or linked, unless its forward was lost at its turn, drops only links of those HTLCs, offers nothing else, and then relays exactly the failures of the committed queue |
| `Commits.FailuresReachSenders` | src/channel.rs:2221-2265 | After such a state update every HTLC of the host that it made failed has lost its link, and its failure has reached the HTLC the link came from, unless that one only came with the same commit |
| `Commits.CommitFailsIff` | src/channel.rs:952-971 | Such a state update fails exactly if the peer is gone, or its dispatch or its relay fails |
| `Commits.OtherStateUpdates` | src/channel.rs:757-796 | A state update that replaces no active state stores what the channel makes of it and does no more |
| `Commits.RelayPassesIff` | src/channel.rs:2242-2264 | One failure is relayed without error exactly if the answer to its link passes |
| `Commits.RecoveryOfOne` | src/channel.rs:2114-2180 | What recovery does for one committed HTLC of a peer: nothing if it is being resolved or waits for a hosted channel, the reported result if its onion went out, and else a dispatch |
| `Commits.RecoveryDecides` | src/channel.rs:2114-2218 | A recovery without error leaves every committed HTLC of the peer queued for a resolution or linked, unless its forward was lost; with the HTLCs of the host included it also settles each known preimage or errors the channel |
| `Commits.KeyedInEveryRun` | src/channel.rs:302-311 | In every run links lie under the places they lead to, which on a normal channel repeat the id they came from |
| `Commits.RepliesAreLearned` | src/channel.rs:1408-1421 | After a reply the preimages known are exactly the earlier ones and those replied, each under its own hash |
| `Commits.InvokeRecovers` | src/channel.rs:594-712 | An invoke of an opening or active channel whose queue can be signed is a recovery of the repaired channel |
| `Commits.InvokeOpensOrWaits` | src/channel.rs:462-557 | Any other invoke opens a new channel under the granted policy, or leaves everything as it is, or stores only the repair when the peer is gone |
| `Offers.OfferTakenIff` | src/channel.rs:3053-3276 | An offer is taken exactly if the channel is active and connected, the preimage unknown, the upstream expiry later than the expiry by at least the delta, the amount within minimum and maximum, and the folded state with the HTLC covered and within its limits; then the HTLC as offered is queued under the next id and linked to its origin with expiry, secret and deadline, and otherwise no channel and no link changes |
| `Offers.OfferAnswered` | src/channel.rs:3062-3195 | An offer that is not taken is answered by the first test it fails: disconnected 0x1007, known preimage settled, too little time 0x100d, too small 0x400e, too large or not covered or over a limit 0x1007; the rest are errors without an answer |
| `Offers.DispatchFailsBack` | src/channel.rs:2267-2347 | A committed HTLC over a limit, asking for more than it brings or bringing too little in money or time goes back with 0x1007 wrapped for its sender, one with an unreadable onion as malformed with 0xc005 and the onion hash, and one for its own channel is an error |
| `Offers.DispatchForwards` | src/channel.rs:2348-2431 | Any other is handed to the node and linked under the next channel, or offered to the hosted one with the amount, expiry, onion and hash; if that fails it goes back and its link is dropped |
| `HostWitness.WrongPreimagePassedOn` | src/channel.rs:3202-3232 | A concrete run of the host, with a withdrawn id, in which a link gets a preimage it does not wait for |
| `HostRuns.ResolvedAtMostOnce` | src/channel.rs:2773-2861 | In every run no channel has two resolutions queued for one HTLC, nor a fulfill and a fail |
| `HostRuns.CapacityIsConservedEverywhere` | src/channel.rs:2182-2218 | In every run of the host, write-backs of earlier data included, all stored, proposed and signed states of all channels own exactly the capacity |
| `HostRuns.IdsStayDistinctEverywhere` | src/channel.rs:3197-3240 | In every run of the host no two HTLCs of one side share an id, and the next id was given before if and only if it was withdrawn |
| `HostRuns.ReplayAgreesEverywhere` | src/channel.rs:602-702 | In every run of the host a peer that folds the replay in any order that folds accepts the host's signature |
| `DispatchLaws.DispatchedUnlessLost` | src/channel.rs:2267-2431 | After a dispatch without error a committed HTLC has a resolution queued or a link waiting, if and only if its forward was not declined by the target, nor announced to the target or sent as an onion under a link key that was taken; the condition reads only what is known before |
| `DispatchLaws.DisconnectedTargetLoses` | src/channel.rs:3073-3084 | A forward to an active hosted channel whose peer is known to be disconnected reports success and leaves neither a resolution nor a link |
| `DispatchLaws.TakenKeyLoses` | src/channel.rs:3202-3232 | A forward that the target takes under a taken key reports success and leaves the sender neither a resolution nor a link |
| `HostWitness.KeyIsTaken` | src/channel.rs:3202-3232 | A concrete run of the host after which the next id of a channel has a link from an earlier HTLC |
| `HostWitness.CommittedHtlcIsLost` | src/channel.rs:2361-2393 | A concrete run of the host with two channels: the peer of the second commits an HTLC for the first, the state update reports success, and the HTLC is left with neither a resolution nor a link, because the key is taken or because the target is disconnected |
| `Fees.DemandedFeeBounds` | src/channel.rs:2333-2335 | Absent saturation the demanded fee is at most the fee of section "HTLC Fees" of BOLT #7 and short of it by less than ppm, equal when ppm is zero |
| `Fees.ShortfallIsTight` | src/channel.rs:2333-2335 | That bound is reached: just below a million msat the shortfall is ppm - 1 |
| `Fees.GuardSecuresFeeIff` | src/channel.rs:2336-2347 | The guard of a forward secures the demanded fee if and only if amount plus fee fits 64 bits, which every signable HTLC ensures |
| `Offers.DemandedFeeIs` | src/channel.rs:2333-2335 | The demanded fee is the base fee and the rate on whole millions, as far as 64 bits go; absent saturation it is the BOLT #7 fee of the amount rounded down to whole millions |
| `Offers.SetFeeIsDemanded` | src/channel.rs:1553-1572 | After a change of parameters a forward is asked the fee just set, each of base and rate under its own name, and delta and maximum are the ones set |
| `Fees.CommitsCompose` | src/channel.rs:931-952 | Queues committed one after another act like one long queue |
| `Fees.DispatchedIsPaid` | src/channel.rs:2318-2366 | Whatever HTLC a dispatch adds to a channel has the amount, hash and expiry the peeled onion asks for and passed the guard with that channel's policy |
| `Fees.DispatchSecuresFee` | src/channel.rs:2333-2352 | Whatever a dispatch of a committed HTLC adds leaves the host at least the fee the target's policy demands |
| `Fees.ForwardBalances` | src/state.rs:90-190 | In any two queues that fold, the first resolutions of the two HTLCs of a forward change the host's balances by exactly their amounts, apart from the other updates |
| `ForwardRuns.EventIsQuiet` | src/channel.rs:462-3394 | Every event that does not open, override, adopt, resize or write back a channel only grows its queue or makes it part of the state |
| `ForwardRuns.HistoryFolds` | src/channel.rs:931-952 | Between such events, over any run, the stored state is what the committed updates make of the earlier one |
| `ForwardRuns.ForwardEarnsFee` | src/channel.rs:2318-2366 | In every run: from the state update that dispatches the HTLC to any later moment when both undisturbed channels have committed its fulfill, the host's two stored balances rise, apart from the other committed updates, by the difference of the amounts, and that is at least the fee the target's policy demanded |
| `ForwardRuns.FailedForwardRestores` | src/channel.rs:2221-2265 | In every run a forward that both undisturbed channels committed as failed leaves the host's two balances as the other committed updates make them, gives the target's peer nothing and the sending peer its whole amount back |
| `Controller.ChannelController.constructor` | src/channel.rs:228-237 | A new controller holds no channels, links, preimages or logs |
| `Controller.ChannelController.SaveChannel` | src/channel.rs:333-360 | Creates or replaces the data of one channel and changes nothing else |
| `Controller.ChannelController.ListChannels` | src/channel.rs:2979-2994 | The hosted peers, each once, in the order of their keys |
| `Controller.ChannelController.PeerForHostedScid` | src/channel.rs:2433-2440 | The scan finds the first hosted peer behind a short channel id, or none |
| `Controller.ChannelController.ForwardLinkForIncoming` | src/channel.rs:2442-2471 | The first link in the order of the store that serves an incoming HTLC, or none |
| `Controller.ChannelController.StateUpdateForUncommitted` | src/channel.rs:2956-2968 | The signed next state with today's block day, or the error that prevents it |
| `Controller.ChannelController.RepairDuplicates` | src/channel.rs:362-379 | Storing only when the queue got shorter equals always storing the deduplicated queue |
| `Controller.ChannelController.HandleUpdateAdd` | src/channel.rs:1067-1128 | Whole new host state and result equal `OnUpdateAdd` on that channel, a missing channel changes nothing, and the host invariant is kept if the peer reuses no id in use |
| `Controller.ChannelController.HandleUpdateFail` | src/channel.rs:1323-1373 | Likewise for `OnUpdateFail`, and the host invariant is always kept |
| `Controller.ChannelController.HandleUpdateFailMalformed` | src/channel.rs:1131-1182 | Likewise for `OnUpdateFailMalformed`, and the host invariant is always kept |
| `Controller.ChannelController.HandleUpdateFulfill` | src/channel.rs:1185-1279 | Host state and result equal `OnFulfill`, including the settlement upstream or in the source channel, and the host invariant is kept |
| `Controller.ChannelController.HostedSettlementIsSafe` | src/channel.rs:1281-1320 | The verdict equals `SettlementIsSafe` |
| `Controller.ChannelController.HandleOpening` | src/channel.rs:799-873 | Likewise for `OnOpening` |
| `Controller.ChannelController.HandleActive` | src/channel.rs:876-952 | Likewise for `OnActive`: repair, counters, block day, fold, signature, store |
| `Controller.ChannelController.HandleOverrideAcceptance` | src/channel.rs:974-1022 | Likewise for `OnOverrideAcceptance` |
| `Controller.ChannelController.ApplyStateUpdate` | src/channel.rs:757-796 | Likewise for `OnStateUpdate`, by status |
| `Controller.ChannelController.HandleStateUpdate` | src/channel.rs:757-971 | Host state and result equal `OnStateMessage`, with all that a commit dispatches, and the host invariant is kept |
| `Controller.ChannelController.HandleLcss` | src/channel.rs:1707-1778 | Likewise for `OnLcss`, and the host invariant is kept unless the signature of the host is forged |
| `Controller.ChannelController.HandleResizeChannel` | src/channel.rs:1424-1474 | Likewise for `OnResize`, and the host invariant is kept if the resize stays within its bound |
| `Controller.ChannelController.ProposeOverride` | src/channel.rs:1814-1866 | Likewise for `OnProposeOverride`, and the host invariant is kept |
| `Controller.ChannelController.SetChannel` | src/channel.rs:1523-1700 | Likewise for `OnSetChannel`, and the host invariant is kept |
| `Controller.ChannelController.SendLocalResolution` | src/channel.rs:2773-2954 | Host state and result equal `SendLocal`: stored before it is sent |
| `Controller.ChannelController.ResolveLink` | src/channel.rs:2624-2650 | Host state and result equal `ResolveForward` |
| `Controller.ChannelController.ResolveForwardFail` | src/channel.rs:2652-2679 | Host state and result equal `ResolveFail`, failure wrapped with the shared secret of the link |
| `Controller.ChannelController.RelayCommittedFailures` | src/channel.rs:2242-2264 | The loop passes on the failures of a committed queue up to the first that cannot be passed on |
| `Controller.ChannelController.RecoverOutgoingHtlcs` | src/channel.rs:2182-2218 | The loop equals `RecoverOutgoing` |
| `Controller.ChannelController.HandleOutgoingPaymentResult` | src/channel.rs:2681-2715 | Host state and result equal `OnPaymentResult`, and the host invariant is kept if the reported preimage is that of the payment |
| `Controller.ChannelController.JudgeOffer` | src/channel.rs:3062-3195 | The checks on an offered HTLC, in order, give the verdict `Judge` with its failure code |
| `Controller.ChannelController.AddHtlc` | src/channel.rs:3232-3276 | Host state and result equal `OnHostAdd` |
| `Controller.ChannelController.HandleHtlcAdd` | src/channel.rs:3053-3276 | Host state and result equal `OnOffer`, failure codes included, and the host invariant is kept |
| `Controller.ChannelController.EnforceChannel` | src/channel.rs:3319-3391 | The two inner loops fail the first overdue or first expired HTLC and no other |
| `Controller.ChannelController.EnforceForwardDeadlines` | src/channel.rs:3316-3394 | The pass over all channels equals `Enforce`, keeps the host invariant, and after one that returns Ok no active channel holds a late HTLC |
| `Controller.ChannelController.DispatchCommittedIncoming` | src/channel.rs:2267-2431 | Host state and result equal `DispatchIncoming` |
| `Controller.ChannelController.ForwardToHosted` | src/channel.rs:2348-2383 | Host state and result equal `ToHosted`: offer, and on failure fail back and drop the link |
| `Controller.ChannelController.ForwardToNormal` | src/channel.rs:2385-2430 | Host state and result equal `ToNormal` |
| `Controller.ChannelController.DispatchCommittedEffects` | src/channel.rs:2221-2265 | The two loops dispatch the HTLCs a commit brought and pass on its failures, stopping at the first error |
| `Controller.ChannelController.RecoverChannelHtlcs` | src/channel.rs:2114-2180 | Host state and result equal `RecoverChannel`, and the host invariant is kept if the node is truthful |
| `Controller.ChannelController.HandleConnect` | src/channel.rs:3396-3406 | Host state and result equal the recovery with outgoing HTLCs, and the host invariant is kept if the node is truthful |
| `Controller.ChannelController.HandleInvoke` | src/channel.rs:462-591 | Host state and result equal `OnInvoke`, and the host invariant is kept if the node is truthful |
| `Controller.ChannelController.HandleReplyPreimages` | src/channel.rs:1408-1421 | The loop stores every preimage under its own hash, and the host invariant is kept |
| `Sphinx.XorInPlace` | src/sphinx.rs:119-123 | In place, the buffer becomes the bytewise exclusive or as far as both strings go |
| `Sphinx.ParseTlvPayload` | src/sphinx.rs:154-225 | The loop over offsets returns what the record-by-record specification returns |
| `Sphinx.PeelOnion` | src/sphinx.rs:289-380 | The buffer-updating code returns `Peel` |
| `Sphinx.CreatePaymentOnion` | src/sphinx.rs:494-576 | Forward pass, filler and backward pass over the buffer return `Create` |
| `Sphinx.SealLayer` | src/sphinx.rs:534-568 | One layer of the backward pass: shift, encrypt, filler, HMAC |
| `SphinxLaws.BigsizeRoundTrip` | src/sphinx.rs:606-619 | Reading a written BigSize returns the value and the bytes used, whatever follows |
| `SphinxLaws.PayloadRoundTrip` | src/sphinx.rs:459-492 | Parsing a built payload returns amount, expiry and short channel id, for every value |
| `SphinxLaws.DecryptWithFiller` | src/sphinx.rs:523-556 | Decrypting an info string whose tail was overwritten by the filler yields the plaintext followed by the filler |
| `SphinxLaws.PeelSealed` | src/sphinx.rs:289-380 | Peeling a sealed layer returns the fields it was built with and the routing info of the next layer |
| `SphinxLaws.SingleHopRoundTrip` | src/sphinx.rs:406-421 | A one-hop onion gives its recipient its fields and an empty next onion |
| `SphinxLaws.TwoHopRoundTrip` | src/sphinx.rs:494-576 | The first peel of a two-hop onion returns the relay fields and, byte for byte, the inner packet; the second returns the final fields and an empty next onion |
| `SphinxLaws.TwoHopFitsIff` | src/sphinx.rs:510-556 | A two-hop onion is built if and only if both hop data fit 1300 bytes |
| `PeelLaws.PeelIff` | src/sphinx.rs:289-380 | A packet of any origin is peeled exactly if it has its size, version and key, its last 32 bytes are the HMAC under the "mu" key of the routing info and the associated data, and it decrypts to a hop; the fields and the next packet are what that hop says |
| `PeelLaws.HmacFailsIff` | src/sphinx.rs:314-320 | For a packet that opens at all the result is `HmacFailed` if and only if that equation fails |
| `PeelLaws.PayloadIff` | src/sphinx.rs:154-239 | A payload is accepted exactly if it is a concatenation of minimally written records of strictly increasing type, each in its form and none of an unknown even type, with amount, expiry and, unless final, short channel id; the fields are what they carry |
| `PeelLaws.CreateIff` | src/sphinx.rs:442-556 | An onion is built exactly for one or two hops that are reached and whose data fit 1300 bytes |
| `SphinxLaws.LawsAreConsistent` | src/sphinx.rs:70-152 | The laws assumed of the primitives have a model in which no HMAC is all zeros |
| `Codec.Cursor.TakeVarint` | src/wire/codecs.rs:163-195 | Advancing the cursor in place returns what `ReadVarint` returns and leaves what it leaves |
| `Codec.ValidateTlvStream` | src/wire/codecs.rs:410-443 | The loop with its previous tag returns `ValidateTlv` |
| `CodecLaws.VarintIff` | src/wire/codecs.rs:143-195 | `read_varint` accepts exactly the outputs of `write_varint`, leaving the rest |
| `CodecLaws.BigsizeAgrees` | src/sphinx.rs:241-280 | `read_varint` and the separately written `read_bigsize` agree on every input |
| `CodecLaws.TlvIff` | src/wire/codecs.rs:410-443 | A stream is valid if and only if it is the concatenation of minimally encoded records with strictly increasing types, none even below 2^32 |
| `LcssCodec.InitBack` | src/wire/lcss.rs:29-61 | Decoding an encoded `init_hosted_channel` returns it with trailing bytes untouched |
| `LcssCodec.HtlcBack` | src/wire/codecs.rs:308-343 | Decoding an encoded HTLC body returns it |
| `LcssCodec.LcssBack` | src/wire/lcss.rs:102-191 | Decoding an encoded state returns it with trailing bytes untouched |
| `LcssCodec.LcssRoundTripIff` | src/wire/lcss.rs:102-191 | An encodable state survives the round trip if and only if its TLV streams are valid and its lists fit their length fields |
| `LcssLaws.LcssReadIff` | src/wire/lcss.rs:133-191 | Bytes are read as a state exactly if they are what the writer writes for it, any first byte but zero standing for the host, and the state fits its fields; what follows is left |
| `LcssLaws.LcssEncodesIff` | src/wire/lcss.rs:102-131 | A state can be written exactly if its amounts and ids are below 2^63, its onions have their size and its script fits 16 bits of length |
| `LcssLaws.LcssOffsets` | src/wire/lcss.rs:102-131 | Where the parts of a written state lie: side, script behind its two-byte length, parameters behind their varint length, numbers, count of incoming HTLCs, and at the end the peer's signature before the host's |
| `LcssLaws.InitOffsets` | src/wire/lcss.rs:29-40 | The offsets and widths of the channel parameters, big-endian |
| `LcssLaws.HtlcOffsets` | src/wire/codecs.rs:308-323 | The offsets and widths of the fields of an HTLC, with the TLV stream as what is left |
| `LcssLaws.NumbersOffsets` | src/wire/lcss.rs:108-112 | The offsets and widths of day, balances and counters, big-endian |
| `LcssLaws.MaterialOffsets` | src/wire/lcss.rs:234-260 | Where the parts of the signed bytes lie, numbers least significant byte first |
| `LcssLaws.MaterialIff` | src/wire/lcss.rs:234-260 | What the bytes under a signature determine, for scripts of one length and HTLCs without TLV streams: exactly the script, every number, the side, and the HTLCs of both directions as one list |
| `LcssLaws.DirectionIsNotSigned` | src/wire/lcss.rs:234-260 | The lists are written without counts: a state and the one that counts all its HTLCs as incoming are hashed alike |
| `LcssCodec.CutOffStateIsLost` | src/wire/codecs.rs:308-343 | A concrete state with a cut-off TLV stream that encodes and does not decode to itself |
| `LcssCodec.EncodesIff` | src/wire/codecs.rs:308-322 | HTLCs encode if and only if ids and amounts are below 2^63 and onions have 1366 bytes |
| `LcssCodec.WriteHtlcs` | src/wire/lcss.rs:113-124 | The loop appends the encoded list to the buffer |
| `LcssCodec.TakeHtlcs` | src/wire/lcss.rs:147-160 | The loop over the cursor returns the decoded list and advances past it |
| `Store.MemoryStore.Get` | src/store.rs:385-402 | The entry under a key, or NotFound |
| `Store.MemoryStore.Create` | src/store.rs:410-427 | Refuses an existing key and otherwise stores generation zero |
| `Store.MemoryStore.Update` | src/store.rs:429-452 | Writes if and only if the expected generation is current, raising it by one; otherwise changes nothing |
| `Store.MemoryStore.Delete` | src/store.rs:454-459 | Removes the key, present or not |
| `Store.MemoryStore.List` | src/store.rs:461-483 | The immediate children of a path, each once: each has a key below it, and every key below the path has its child listed |
| `Store.DeleteSubtree` | src/store.rs:246-273 | The worklist loop terminates on every finite store, removes exactly the keys at or below the root, leaves the others unchanged and returns how many it removed |
| `OneTimeSecret.StepKeeps` | src/channel.rs:1898-1965 | Each single store operation of each client keeps the accounting of grants, marked clients and unspent secrets |
| `OneTimeSecret.GrantsAreBacked` | src/channel.rs:1936-1965 | Under any interleaving of adds, removes and invokes, no more policies are granted than secrets were added |
| `OneTimeSecret.LoneInvokeGrants` | src/channel.rs:1936-1965 | From every state of every interleaving, a client that invokes alone while a secret is stored is granted the policy, and the secret is gone |
| `OneTimeSecret.UpdateMarksIff` | src/channel.rs:1945-1959 | A client that holds a secret marks it exactly if it is still there unspent: it fails only to another taker |
| `LedgerSequence.StepKeeps` | src/ledger.rs:100-152 | Each store operation of each recorder keeps the generation equal to the numbers handed out |
| `LedgerSequence.NumbersAreUnique` | src/ledger.rs:100-152 | Under any interleaving, and with recorders that stop anywhere, no number is handed out twice, every entry is below the next number, and creating an entry never collides |
| `LedgerSequence.LoneRecorderRecords` | src/ledger.rs:100-152 | From every state of every interleaving, a recorder that is not disturbed gets the next number, stores its entry and leaves the number after it |
| `LedgerSequence.UpdateHandsOutIff` | src/ledger.rs:110-133 | A number read is handed out exactly if it is still the next one |

## Left out

Assumptions:

- Signatures are ideal in the channel model: a signature is its signer and the fields that `hosted_sig_hash` covers, with the two lists of HTLCs apart, which the hashed bytes do not keep apart (`LcssLaws.MaterialIff`). The logs of a channel start empty when it is created.
- A peer presents the host's signature only on states the host signed (`ChannelRuns.Possible`).
- A peer does not add an HTLC under an id that is still committed or pending on its side, and shrinks a channel only within `ChannelRuns.ResizeFits` (`ChannelRuns.Disciplined`). The source checks neither; `ChannelRuns.PeerAddKeepsIff` and `ChannelRuns.ResizeKeepsIff` show that both are needed, and `Conservation` does without them.
- A policy gives the client at most the capacity; the subtraction at src/channel.rs:564 is unchecked.
- Update counters are unbounded naturals; an offer that would need an id of 2^32 or more is refused with `CountersExhausted`, which the source does not do.
- The node names a preimage only for the payment hash asked about (`HostRuns.Honest`, `HostRuns.TrueReport`); the source stores it unchecked.
- The cryptographic primitives of the onion satisfy `Sphinx.Lawful` (Diffie-Hellman agrees, blinding commutes with taking the public key, a shorter stream is a prefix of a longer one); the first peel of two hops assumes that the inner HMAC is not all zeros.
- SHA-256 is an arbitrary function from preimages to hashes.
- The store lists the keys of links in some fixed order (`World.rank`) and peers in the order of their keys.
- Hosted short channel ids are 64-bit values derived from keys; `LinkRuns.LinkDisagreesIff`, `Effects.WatchdogFails` and `Commits.RecoveryDecides` are stated for peers that share theirs with no other.
- Every handler is one atomic step. `save_channel` without a generation does not detect concurrent writers, so interleaved handlers are outside the model.

Stated for fewer inputs or as less than the source does:

- ChannelRuns.EveryEventKeeps: leaves out peers that reuse an id in use or shrink under the queue, for which the invariant fails; `Conservation.EventBacks` covers them.
- ChannelRuns.ReachableIsSound: likewise; `Conservation.CapacityIsConserved` covers them.
- Controller.ChannelController.HandleInvoke: a granted policy gives the client at most the capacity, because of the unchecked subtraction.
- Controller.ChannelController.JudgeOffer: refuses an offer when the counters are exhausted, which the source does not do.
- Controller.ChannelController.SaveChannel: has no generation argument; no handler of the model passes one.

Not modelled:

- Message transport: a send can fail where the source stores before it sends (resolutions, added HTLCs, commits, reconnects); replies that only inform the peer always succeed. `channel_update_pending` is set and never cleared, since gossip is left out.
- The block height is always available; the wall clock is a parameter.
- Store.MemoryStore.List: states which children are listed, and not their order.
- LcssCodec.LcssBack: HTLC TLV streams are shorter than 4 GB, so that body lengths are not truncated.
- LcssLaws.MaterialIff: leaves out HTLCs with TLV streams and scripts of different length; the hashed bytes delimit neither, so that still more states share them.
- LcssLaws.LcssReadIff: HTLC TLV streams are shorter than 4 GB, for the same reason.
- LcssCodec.LcssRoundTripIff: HTLC TLV streams are shorter than 4 GB, for the same reason.
- Sphinx.CreatePaymentOnion: returns an error where the source panics because the first hop's data exceeds 1300 bytes; the session key is a parameter.
- Sphinx.ParseTlvPayload: offsets are naturals, so the machine-word overflow of the sum at src/sphinx.rs:172 does not occur.
- Decoding followed by encoding is the identity on bytes up to the first: `read_bool` accepts every nonzero byte (`LcssLaws.LcssReadIff`).
- At most one link per HTLC for forwards from a hosted to a normal channel is not claimed: the key reuses the incoming id.
- The stored state right after a resize is not claimed to be dual-signed: only the host's signature is renewed.
- `remove_channel`, `handle_error`, `handle_query_preimages`, `accept_resize` and `send_direct_payment` as methods: they would only add easy members (the error, resize and payment steps are events of `ChannelRuns`).
- Secrets: the policy a secret grants and the parsing of its text; only who is granted how often.
- Ledger: the contents of events, `record_once`, `list_events` and `channel_balance`; only the allocation of sequence numbers.
- `cas_json`, JSON serialization and the Core Lightning store.
- RPC commands and option parsing (src/main.rs), the node client (src/cln_node.rs), key derivation, gossip, branding, configuration and the block scanner.
- The simpler HTLC hook entry (src/htlc.rs), the fixed-layout messages (src/wire/mod.rs) and channel id derivation (src/channel_id.rs).
- `wrap_failure`: failure wrapping is an arbitrary function of the host.
