# Display driver protocols in Dafny

A model of the stateful core of the Qualcomm MSM display drivers, with proofs about it: who may use
which plane, which power state the display RSC is in, which commits are in flight, who frees a
commit, how HDCP 2.2 messages follow each other, and the index structures beside them.

Each component has two layers. A value layer gives the state as a datatype, every driver call as a
function on it, and a history of calls as a fold; the theorems are about all histories. Where the
driver changes fields or arrays in place, a class has those fields and loops; its `Valid()` holds the
component's invariant, every entry point keeps it and says what it guarantees, and the link to the
value layer is part of the contract. Locks become atomic steps; `EventRaces.dfy` looks between them. Answers
of hardware, TrustZone, regulators, clocks and the event hooks are arbitrary parameters of a step,
restricted only where a row below says so.

| file | component |
|---|---|
| `LeaseWiring.dfy`, `LeaseManager.dfy` | lease manager: object hand-out, rewiring of primary planes, remaining-objects pass |
| `RscCoordinator.dfy`, `RscDriver.dfy`, `RscTimer.dfy` | display RSC: votes, v2 and v3 switch functions, clock reference, timers |
| `CommitMasks.dfy`, `AtomicCommit.dfy` | atomic commits: pending masks, display threads, ownership of the commit object |
| `Hdcp2x.dfy` | HDCP 2.2 message sequencer |
| `PowerVotes.dfy`, `BusQuota.dfy` | power references and register-bus votes, data-bus quotas |
| `EventClients.dfy`, `EventRaces.dfy` | registration of hardware events, call by call and at the granularity of its lock |
| `EventLog.dfy` | event log ring and its dump |
| `PropertyState.dfy` | property lookup and dirty list |
| `CeaBlocks.dfy` | EDID data-block walkers and audio blocks |

Where the code does not do what one would expect of it, the model follows the code:

- The remaining-objects pass does not compare CRTCs with planes, unlike the explicit parse, and may
  read plane slots that were never filled (`RemainMayRunOutOfPlanes`); exactly when is stated for one
  pass (`RemainDefinedIff`), one notification and a whole history (`RunDefinedIff`).
- In RSC v3 a failed mode-2 exit can be masked by a vsync wait that ends well, which leaves power
  collapsed in CLK (`CollapseInClkV3`; exactly when: `RunCollapsedIff`). A failed hardware
  initialisation and a failed enable in the vote trigger keep the clock reference they took
  (`LeakReachable`; `RunRefcount` counts them).
- A lease whose parse fails leaves the encoders it narrowed so far narrowed (`NotifyLeases`).
- While an HDCP 2.2 sink's L' is awaited, a timeout for which TrustZone asks for another LC_INIT announces
  the session key instead, unless a retry was noted before (`TimeoutInSession`, `TimeoutAgreesIff`).
- The RSC prefill default of 25 lines is below the minimum of 35 that is applied next, so it has no
  effect (`PrefillDefaultUnused`).
- Destroying a power client does not drop its references (`DestroyKeepsIff`). With two data-bus use
  cases the active one is overwritten (`TwoUsecasesCollide`, `RotationLeaves`), and with one, or with
  no real-time path, the quota call divides by zero (`SetQuota`).
- The audio data block loop retries a refused block for ever once something has been gathered
  (`AudioMayHang`, `AudioEndsIff`). The two block walkers differ on a last block that is one byte
  short, without an end offset, below revision 3 and for an end offset beyond the block
  (`WalkersDiffer`, `FindersAgreeIff`), and in the last case one of them may leave the block
  (`RawWalkerStaysIff`).
- Event registration drops its lock between its steps; an unlucky overlap of two calls leaves a client
  waiting for a disabled event (`RaceLosesEvent`; exactly when: `RestIff`; enough for it not to
  happen: `ApartStaysSteady`).

## Model

| member | source | states |
|---|---|---|
| LeaseWiring.RewireTheorem | msm-lease/msm_lease_drv.c:511-579 | For every layout: if `crtc->primary` is a bijection onto the PRIMARY planes and the overlay counter is right, both still hold after the three passes, legacy back pointers stay right, the i-th leased CRTC has the i-th leased plane, and no CRTC is left without a primary if and only if planes are not fewer than CRTCs. |
| LeaseWiring.RewireLeavesOthers | msm-lease/msm_lease_drv.c:511-579 | A CRTC outside the lease whose primary is outside the lease keeps it. |
| LeaseWiring.ResetPlanesEffect | msm-lease/msm_lease_drv.c:537-550 | Pass 1: exactly the leased planes stop being PRIMARY and stop being anyone's primary; bijection and counter are kept. |
| LeaseWiring.SetPrimariesEffect | msm-lease/msm_lease_drv.c:552-562 | Pass 2: after n rounds the first n leased CRTCs have the first n leased planes, the rest are still overlays, other CRTCs are untouched; bijection and counter are kept. |
| LeaseWiring.AssignFreeEffect | msm-lease/msm_lease_drv.c:564-578 | Pass 3: a CRTC with a primary keeps it, and with enough planes every visited CRTC has one. |
| LeaseWiring.AssignFreeLowest | msm-lease/msm_lease_drv.c:564-578 | Pass 3 serves the CRTCs in list order with the lowest overlay planes: earlier CRTCs get lower planes, none left over is lower than one handed out, and a CRTC goes without only when none is left. |
| LeaseWiring.AssignOnePicks | msm-lease/msm_lease_drv.c:565-577 | One CRTC without a primary gets the first overlay plane, which becomes PRIMARY and points back at it. |
| LeaseWiring.ResetPointers | msm-lease/msm_lease_drv.c:537-550 | After pass 1 exactly the leased planes that were primaries have no legacy CRTC pointer; all others keep theirs. |
| LeaseWiring.SetPointers | msm-lease/msm_lease_drv.c:552-562 | After n rounds of pass 2 the first n planes point at their CRTCs; all others keep their pointer. |
| LeaseWiring.TooFewPlanes | msm-lease/msm_lease_drv.c:564-578 | With fewer planes than CRTCs any bijective wiring leaves a CRTC without a primary. |
| LeaseWiring.ModeConfig.ResetLeasedPlane | msm-lease/msm_lease_drv.c:539-549 | The loop over CRTCs for one plane equals the specification step: the owner, if any, loses the plane. |
| LeaseWiring.ModeConfig.ResetLeasedPlanes | msm-lease/msm_lease_drv.c:537-550 | The in-place first pass equals its specification. |
| LeaseWiring.ModeConfig.SetLeasedPrimaries | msm-lease/msm_lease_drv.c:552-562 | The in-place second pass equals its specification; it comes to an unfilled plane slot if and only if there are more CRTCs than planes, after one round per plane. |
| LeaseWiring.ModeConfig.AssignResetCrtcs | msm-lease/msm_lease_drv.c:564-578 | The nested in-place loops of the third pass equal their specification. |
| LeaseManager.RunKeeps | msm-lease/msm_lease_drv.c:475-830 | Over any sequence of notifications, with allocation and registration failing at will: leases are pairwise disjoint, duplicate-free, of at most 64 real objects; the wiring is a bijection with a right overlay counter; the i-th CRTC of every lease has the i-th plane of that lease. |
| LeaseManager.RunStable | msm-lease/msm_lease_drv.c:475-830 | Once a lease has objects, no later notification of another lease (or again of one that holds a plane of its own list) and no remaining-objects pass changes its objects or the primary plane of its CRTCs, which is a plane of the same lease. |
| LeaseManager.OnceStable | msm-lease/msm_lease_drv.c:475-830 | Over every history in which each lease is notified at most once, as the driver does: whenever a lease has objects, from its lists or as the remaining lease, it keeps them, and each of its CRTCs keeps its primary plane, one of the same lease, ever after. |
| LeaseManager.HoldersWereNotified | msm-lease/msm_lease_drv.c:747-830 | A lease has a minor or objects only after its own notification. |
| LeaseManager.SecondParseRefused | msm-lease/msm_lease_drv.c:475-509 | A parse that names a plane the lease already holds fails. |
| LeaseManager.ParsedHoldsNamed | msm-lease/msm_lease_drv.c:581-622 | Every lease filled from its own lists holds one of its named planes. |
| LeaseManager.InitiallyGood | msm-lease/msm_lease_drv.c:898-922 | Before the first notification the invariant holds. |
| LeaseManager.AddPlaneFresh | msm-lease/msm_lease_drv.c:475-509 | Adding a plane keeps ids new, distinct and within the limit, and adds exactly one plane and no CRTC on success. |
| LeaseManager.AddConnectorFresh | msm-lease/msm_lease_drv.c:401-473 | Adding a connector keeps ids new, distinct and within the limit, and adds exactly one CRTC and no plane on success. |
| LeaseManager.AddConnectorMeans | msm-lease/msm_lease_drv.c:401-473 | A connector is added if and only if its name is known, it is free, its own encoder exists and can drive a free CRTC, and two places are left; then its id and that of the first such CRTC are appended, that encoder drives exactly this CRTC and no other encoder changes. Each refusal has its code and changes nothing. |
| LeaseManager.AddPlaneMeans | msm-lease/msm_lease_drv.c:475-509 | A plane is added if and only if its name is known, it is free and a place is left; the code of each refusal. |
| LeaseManager.AddConnectorsNamed | msm-lease/msm_lease_drv.c:612-619 | A connector list is accepted up to its first name that cannot be leased; each accepted name adds its connector and a CRTC its encoder could drive, in order; encoders are only narrowed. |
| LeaseManager.ParseObjsFresh | msm-lease/msm_lease_drv.c:581-622 | A successful parse yields fresh ids with no more CRTCs than planes. |
| LeaseManager.ParseObjsMeans | msm-lease/msm_lease_drv.c:581-622 | Exactly which leases the explicit parse accepts, its code otherwise, and what it gives: nothing without both lists, else the named planes in order and each named connector with its CRTC. |
| LeaseManager.CollectRemainingFresh | msm-lease/msm_lease_drv.c:624-710 | What the remaining-objects pass collects is held by no other lease, distinct and within the limit, with or without explicit lists. |
| LeaseManager.CollectIsCapped | msm-lease/msm_lease_drv.c:658-710 | Without explicit lists it is exactly the unleased planes, connectors and CRTCs in list order, cut at 64. |
| LeaseManager.RemainPartition | msm-lease/msm_lease_drv.c:624-715 | After the pass the disjoint leases hold every plane, connector and CRTC if and only if at most 64 objects had been left. |
| LeaseManager.RemainDefinedIff | msm-lease/msm_lease_drv.c:624-715 | For every target lease, with no list, a plane list, a connector list or both, and however many objects are left: the pass reads only plane slots it filled if and only if it does not give more CRTCs than planes, counted from the unleased objects, the leading names that can be leased and the 64 places. |
| LeaseManager.GivenCounts | msm-lease/msm_lease_drv.c:652-710 | These two counts are the planes and CRTCs among the collected ids. |
| LeaseManager.AddPlanesNamed | msm-lease/msm_lease_drv.c:475-509 | A plane list is accepted up to its first name that is unknown, leased, repeated or beyond the limit, and gives exactly those planes in order. |
| LeaseManager.NotifyDefinedIff | msm-lease/msm_lease_drv.c:747-830 | A notification reads an unfilled slot if and only if it gets to the pass and the pass runs short in the state it has recorded. |
| LeaseManager.RunDefinedIff | msm-lease/msm_lease_drv.c:747-830 | A whole history reads no unfilled slot if and only if none of its notifications runs short. |
| LeaseManager.RemainMayRunOutOfPlanes | msm-lease/msm_lease_drv.c:624-715 | A device with as many planes as CRTCs and two notifications that make the pass read an unfilled slot. |
| LeaseManager.InstallKeeps | msm-lease/msm_lease_drv.c:779-785 | Recording fresh ids and rewiring keeps the whole invariant, including all other leases' wiring. |
| LeaseManager.ParseRemainKeeps | msm-lease/msm_lease_drv.c:624-715 | The remaining-objects pass keeps the invariant. |
| LeaseManager.NotifyKeeps | msm-lease/msm_lease_drv.c:747-830 | One notification keeps the invariant on every path. |
| LeaseManager.NotifyLeases | msm-lease/msm_lease_drv.c:747-830 | The leases after a notification: unchanged on refusal, else the lease has its minor and parsed objects, and if all have minors and registration succeeds, the last lease without objects has what the pass collects. |
| LeaseManager.NotifyLeavesLease | msm-lease/msm_lease_drv.c:747-830 | One notification leaves the objects of an undisturbed lease alone. |
| LeaseManager.FindObjId | msm-lease/msm_lease_drv.c:99-109 | True if and only if the id is among the first `count` ids. |
| LeaseManager.LeaseDriver.ObjIsLeased | msm-lease/msm_lease_drv.c:111-122 | True if and only if some lease or the list being built holds the id. |
| LeaseManager.LeaseDriver.LeasePlane | msm-lease/msm_lease_drv.c:475-509 | Succeeds if and only if the plane is known, free and has a place; appends exactly it. |
| LeaseManager.LeaseDriver.LeaseConnector | msm-lease/msm_lease_drv.c:401-473 | Succeeds if and only if the connector can be leased; appends it and the first free CRTC of its own encoder, which is narrowed to it; a refusal changes nothing. |
| LeaseManager.LeaseDriver.FindCrtc | msm-lease/msm_lease_drv.c:446-455 | The CRTC loop returns the first CRTC the encoder can drive that nobody holds. |
| LeaseManager.LeaseDriver.SortObjects | msm-lease/msm_lease_drv.c:524-535 | The slots hold the leased planes and CRTCs in the order of the ids. |
| LeaseManager.LeaseDriver.FixupCrtcPrimary | msm-lease/msm_lease_drv.c:511-579 | For any ids: the rewiring through the slot arrays equals the specification, and comes to an unfilled slot if and only if there are more CRTCs than planes. |
| LeaseManager.LeaseDriver.ParseLease | msm-lease/msm_lease_drv.c:581-622 | The explicit parse into the id array equals the specification, with its error codes. |
| LeaseManager.LeaseDriver.LeaseUnleased | msm-lease/msm_lease_drv.c:663-673 | A collecting loop with its limit equals the specification. |
| LeaseManager.LeaseDriver.GiveRemaining | msm-lease/msm_lease_drv.c:624-715 | The remaining-objects pass on the driver state equals the specification, including the choice of the target lease. |
| LeaseManager.LeaseDriver.Notified | msm-lease/msm_lease_drv.c:747-830 | The object part of the notifier keeps leases exclusive and wired, and reads an unfilled slot if and only if the pass runs short. |
| RscCoordinator.RunSafeV3 | msm/sde_rsc.c:491-1256 | Over every history, with mode-2 entry and exit, vsync waits, clocks and regulators failing at will: never CMD or VID while an external display holds a CLK vote, and power collapse only in IDLE or CLK. |
| RscCoordinator.StepKeepsSafeV3 | msm/sde_rsc.c:1139-1256 | Every API call, client creation and destruction, hibernation and debug block keeps that joint invariant. |
| RscCoordinator.SwitchV3Safe | msm/sde_rsc.c:491-945 | Any v3 switch from a state where at most the vote being cast is unserved lands safely, whatever it returns, including the switches it delegates to. |
| RscCoordinator.SwitchFollowsVotes | msm/sde_rsc.c:491-995 | v2 and v3, from the votes alone: whatever the hardware answers a switch stays or goes where the votes lead, and with good hardware it goes there. For IDLE in v3: VID, then CMD, if voted without an external CLK vote; else CLK if a CLK client votes so, else IDLE. |
| RscCoordinator.SwitchLandsExactly | msm/sde_rsc.c:491-995 | Exactly where a switch ends for all hardware answers: where the votes lead if power comes up, IDLE can be entered and a pending vsync wait ends well, each where it applies; otherwise where it was. |
| RscCoordinator.UpdateFollowsVotes | msm/sde_rsc.c:1139-1256 | The same for a state update, counting the vote just cast; a repeated request without a configuration does not act; re-initialisation stays pending until a request other than IDLE acts. |
| RscCoordinator.SwitchWaitsIff | msm/sde_rsc.c:634-887 | When a switch asks for one more vsync wait, when it sits out the pending ones, and that nothing else changes them. |
| RscCoordinator.UpdateFootswitch | msm/sde_rsc.c:1092-1118 | A request other than IDLE puts the footswitch under software control if and only if it re-initialises with the regulator on. |
| RscCoordinator.CollapseInClkV3 | msm/sde_rsc.c:634-700 | A reachable state in CLK with power collapsed: "power collapse implies IDLE" does not hold. |
| RscCoordinator.RunCollapsedIff | msm/sde_rsc.c:491-1256 | "Power collapse implies IDLE" holds throughout a v3 history if and only if no call of it comes to the CLK update with power collapsed and a vsync wait pending, sees the mode-2 exit fail and the wait end well. |
| RscCoordinator.StepCollapsedIff | msm/sde_rsc.c:1139-1256 | The same for one API call, including client destruction and the delegation by IDLE. |
| RscCoordinator.SwitchCollapsedIff | msm/sde_rsc.c:634-945 | The same for one v3 switch, in terms of the votes, the pending wait and the hardware answers. |
| RscCoordinator.CollapseAfterUpdate | msm/sde_rsc_hw_v3.c:381-474 | After a hardware update power is collapsed if and only if a failed exit left it so or IDLE was entered; when it succeeds, and when the footswitch is released. |
| RscCoordinator.RunDominatesV2 | msm/sde_rsc.c:563-1256 | v2, with hardware updates succeeding, vsync in time and only the one primary voting CMD: a VID vote forces VID, a CMD vote forces CMD or VID, IDLE means no VID, no CMD and no CLK-type CLK vote. |
| RscCoordinator.SwitchV2Dominates | msm/sde_rsc.c:563-995 | A v2 switch for the vote just cast restores dominance, whichever state it lands in. |
| RscCoordinator.RunRefcount | msm/sde_rsc.c:316-1367 | Whatever the switch functions and supplies return, the clock reference count is 1 (non-IDLE) or 0 (IDLE) plus the number of calls that leaked a reference. |
| RscCoordinator.LeakReachable | msm/sde_rsc.c:1298-1367 | One vote trigger whose clocks do not come up leaves a reference in IDLE. |
| RscCoordinator.HwInitBalance | msm/sde_rsc.c:1092-1118 | A re-initialisation gives back its reference if and only if it does not fail after taking it. |
| RscCoordinator.ClkRoundTrip | msm/sde_rsc.c:316-372 | An enable followed by a disable restores the count whatever the supplies answer, and the whole state if they succeed. |
| RscCoordinator.ClkEdges | msm/sde_rsc.c:316-372 | From matching clocks, a call fails and clocks change only on the first or last reference, and exactly for which answers. |
| RscCoordinator.UpdateExcess | msm/sde_rsc.c:1139-1256 | A state update changes the surplus of references exactly when its hardware initialisation fails after taking one. |
| RscCoordinator.RunClocks | msm/sde_rsc.c:316-372 | With regulator and clock calls succeeding, the clocks are on if and only if the count is positive. |
| RscDriver.RscPriv.EnterMode2 | msm/sde_rsc_hw_v3.c:323-379 | The retry loop succeeds if and only if collapse is not blocked, fast mode is not refused while needed and at most three triggers fail; only then is the footswitch released. |
| RscDriver.RscPriv.ScanClients | msm/sde_rsc.c:889-945 | The flags of the client loop say whether a matching vote exists. |
| RscDriver.RscPriv.ToCmd | msm/sde_rsc.c:491-632 | Both CMD switches equal their specifications. |
| RscDriver.RscPriv.ToClk | msm/sde_rsc.c:634-755 | Both CLK switches equal their specifications. |
| RscDriver.RscPriv.ToVid | msm/sde_rsc.c:757-887 | Both VID switches equal their specifications. |
| RscDriver.RscPriv.ToIdle | msm/sde_rsc.c:889-995 | Both IDLE switches with their delegation and translated codes equal the specification whose landing `SwitchLandsExactly` gives. |
| RscDriver.RscPriv.UpdateClient | msm/sde_rsc.c:1139-1256 | Records the vote; the new state is where the votes lead, or the old one; in v3 CMD or VID means no external CLK vote and no collapse, and power is collapsed outside IDLE exactly in the masked case; v2 dominance, vsync waits, footswitch and references as the theorems say. |
| RscDriver.RscPriv.Trigger | msm/sde_rsc.c:1298-1367 | Keeps the invariant; the count grows by one if and only if the enable fails, and with good supplies nothing changes. |
| RscDriver.RscPriv.CreateClient | msm/sde_rsc.c:83-124 | A new idle client with an id no client has; all other votes and the invariant are kept, v2 dominance if there was no primary. |
| RscDriver.RscPriv.DestroyClient | msm/sde_rsc.c:134-179 | The client, and no other, is gone; if it was not idle, the state is where the remaining votes lead; safety, dominance (v2) and references are kept. |
| RscTimer.WakeupFits | msm/sde_rsc.c:374-474 | For all 32-bit panel configurations: the static wakeup is within 32 bits and time slot 1; if positive, 52 times it plus the reserved times fits in the frame, and it is the largest such number. |
| RscTimer.PrefillDefaultUnused | msm/sde_rsc.c:402-407 | The prefill default has no effect on any configuration, and defaulting a stored configuration again changes nothing. |
| RscTimer.TimesMean | msm/sde_rsc.c:412-424 | Frame time, jitter and prefill time as the largest numbers that fit the frame rate, the percentage and the line count. |
| RscTimer.DefaultPanel | msm/sde_rsc.c:392-438 | The times and wakeups of the default panel. |
| RscTimer.SignedDifferenceExact | msm/sde_rsc.c:426-438 | The wrapped u64 subtraction read as s64 is the true difference. |
| RscTimer.Bounds | msm/sde_rsc.c:374-430 | After defaulting, frame time, jitter product and prefill time do not overflow 64 bits. |
| RscTimer.TimerState.Calculate | msm/sde_rsc.c:374-474 | All timer fields, with the driver's wrapping and truncating arithmetic, equal their exact values; wakeup never exceeds slot 1. |
| AtomicCommit.RunKeeps | msm/msm_atomic.c:43-779 | Under every interleaving of any number of commits: in-flight CRTC masks are pairwise disjoint, so are plane masks, the pending masks are exactly their unions, and every commit is in a consistent stage of its life. |
| AtomicCommit.RunExactlyOnce | msm/msm_atomic.c:75-779 | At any time nothing has happened twice to a commit and no thread has read it after its free; when it is over it was completed, ended, put and freed exactly once, and queued exactly once if a thread took it. |
| AtomicCommit.OverMeansOnce | msm/msm_atomic.c:527-566 | A finished commit had each of these effects exactly once, for blocking, non-blocking and undispatched ones. |
| AtomicCommit.NeverTwice | msm/msm_atomic.c:527-566 | No effect happens twice, completion precedes the put and the put precedes the end, a started commit is freed only after its completion, and a blocking call returns only when the commit is over. |
| AtomicCommit.InterruptedStart | msm/msm_atomic.c:43-60 | An interrupted start changes no mask and no other commit, frees the commit once and ends it. |
| AtomicCommit.Quiescent | msm/msm_atomic.c:43-73 | With nothing in flight both masks are empty and every commit can start. |
| AtomicCommit.NeverStuck | msm/msm_atomic.c:527-659 | A started commit that is not over always has an enabled step. |
| AtomicCommit.MovesBounded | msm/msm_atomic.c:527-779 | A commit takes at most 14 steps in any interleaving. |
| AtomicCommit.MoveKeepsMasks | msm/msm_atomic.c:43-73 | Every step keeps disjointness and the unions. |
| CommitMasks.OrRemove | msm/msm_atomic.c:64-73 | Clearing one of pairwise disjoint masks from their union leaves the union of the others. |
| CommitMasks.OrLess | msm/msm_atomic.c:64-73 | Dropping one of pairwise disjoint masks leaves the union without its bits. |
| CommitMasks.PendingMasks.StartAtomic | msm/msm_atomic.c:43-60 | Starts if and only if the commit conflicts with none in flight; the pending masks stay the unions of pairwise disjoint claims; otherwise nothing changes. |
| CommitMasks.PendingMasks.EndAtomic | msm/msm_atomic.c:64-73 | Afterwards the pending masks are exactly the union of the other commits' claims, and the commit's bits are free. |
| CommitMasks.BuildMask | msm/msm_atomic.c:702-720 | The mask has exactly the bits of the listed indices. |
| CommitMasks.Dispatch | msm/msm_atomic.c:602-641 | Queues at most once, on the display thread of the first matching entry, and not at all if and only if that thread is missing or dead. |
| Hdcp2x.RunOrder | msm/sde_hdcp_2x.c:200-1086 | Over every order of work items and every TrustZone answer, the messages announced since the last reset never go back through AKE, LC, SKE and repeater; the session key is announced at most once, and only after AKE_INIT, certificate, km, H', optional pairing and one or more complete locality checks. |
| Hdcp2x.AnnouncedIff | msm/sde_hdcp_2x.c:200-1086 | The announced sequences of all runs are exactly the paths from AKE_INIT along the permitted steps: none other occurs and each of them does. |
| Hdcp2x.SessionCompletes | msm/sde_hdcp_2x.c:463-800 | With a willing sink and TrustZone, stored or new km, HDMI or DisplayPort, any number of locality retries: the announced messages are exactly those of the specification, for a receiver through the stream type, for a repeater through acknowledgement, stream management and stream ready, and the sink is authenticated at the end if and only if TrustZone accepts the key. |
| Hdcp2x.RunAuthenticatedIff | msm/sde_hdcp_2x.c:521-800 | Over every run the sink is authenticated if and only if TrustZone accepted the key, after the stream type went out or when a repeater was ready without stream management or resend pending, and no cleanup came after it. |
| Hdcp2x.StepAuthenticatedIff | msm/sde_hdcp_2x.c:521-800 | The same for one work item: no other one sets it, and only cleanup clears it. |
| Hdcp2x.AnnouncesIff | msm/sde_hdcp_2x.c:433-800 | Exactly which work items announce something, by HDCP being on, the kind of sink and TrustZone's answers. |
| Hdcp2x.ResendIff | msm/sde_hdcp_2x.c:862-905 | A resend is noted if and only if streams change while a repeater's readiness is awaited, and spent when its next READY is. |
| Hdcp2x.ChangedStreamsResent | msm/sde_hdcp_2x.c:741-760 | Streams that changed are managed once more, and only then is the key asked for. |
| Hdcp2x.TimeoutInSession | msm/sde_hdcp_2x.c:658-680 | After any number of retries, what a timeout at L' announces when TrustZone asks for another locality check. |
| Hdcp2x.TimeoutAgreesIff | msm/sde_hdcp_2x.c:658-680 | When the announced message is the LC_INIT that TrustZone asks for after a timeout. |
| Hdcp2x.PathShape | msm/sde_hdcp_2x.c:200-254 | What must precede each message, and at which position, on any announced sequence. |
| Hdcp2x.PhasesForward | msm/sde_hdcp_2x.c:200-254 | Phases along an announced sequence never decrease. |
| Hdcp2x.WakeupKeeps | msm/sde_hdcp_2x.c:282-312 | A wakeup extends the announced sequence by a permitted step or resets it. |
| Hdcp2x.StepKeeps | msm/sde_hdcp_2x.c:463-1086 | Every work item and command keeps the sequence well formed, including the stream query that rewrites the last message. |
| Hdcp2x.ReplyAnnounced | msm/sde_hdcp_2x.c:690-800 | On any transport, if TrustZone replies to the awaited sink message with one that may follow it, that message is announced next. |
| Hdcp2x.AnnouncesAnswer | msm/sde_hdcp_2x.c:550-598 | After a sent message the answer the specification expects of the sink is awaited; a step of every session above. |
| Hdcp2x.AnnouncesAfterKey | msm/sde_hdcp_2x.c:550-598 | After the session key a repeater's receiver list is awaited, otherwise the stream type is sent; the last step of every session above. |
| Hdcp2x.HdcpCtrl.OnMsgSent | msm/sde_hdcp_2x.c:550-598 | Keeps the sequence in order; awaits the sink's answer; authenticates if and only if the stream type went out and the key is accepted; is silent if and only if an acknowledgement waits for the stream query. |
| Hdcp2x.HdcpCtrl.OnMsgRecvd | msm/sde_hdcp_2x.c:690-800 | Keeps the sequence in order; announces the session key only after a complete handshake and TrustZone's reply whenever it may follow; authenticates exactly a ready repeater whose key is accepted. |
| Hdcp2x.HdcpCtrl.OnStream | msm/sde_hdcp_2x.c:463-502 | Announces stream management if and only if HDCP is on, the sink is a repeater that is authenticated or acknowledged, and TrustZone answers; else nothing. |
| Hdcp2x.HdcpCtrl.OnStart | msm/sde_hdcp_2x.c:1018-1028 | A new, empty sequence of a sink not known as a repeater. |
| Hdcp2x.HdcpCtrl.OnOtherWork | msm/sde_hdcp_2x.c:372-688 | Exactly when each announces something; only cleanup ends authentication and switches HDCP off. |
| PowerVotes.RunKeeps | msm/sde_power_handle.c:856-1062 | Over every history with successful resource calls, scale requests from LOW to HIGH, and clients destroyed idle: resources are on if and only if some refcount is positive, the register-bus vote is at least every client's vote and DISABLE if and only if off, and the driver's client has one reference per open file with a non-zero count plus its own. |
| PowerVotes.RunBusVote | msm/sde_power_handle.c:856-1062 | Over every such history the register-bus vote is the highest client vote as of the last accepted scale or switch of the resources. |
| PowerVotes.EnableBusVote | msm/sde_power_handle.c:917-1062 | An enable or disable votes the highest vote if and only if it switches the resources, and leaves the caller with vote LOW or DISABLE. |
| PowerVotes.EnableKeeps | msm/sde_power_handle.c:917-1062 | Enable and disable keep this, move the caller's count by one (not below zero) and no other client. |
| PowerVotes.ChangeDirection | msm/sde_power_handle.c:902-1062 | Resources change only for the first reference taken or the last dropped, in that direction. |
| PowerVotes.ScaleKeeps | msm/sde_power_handle.c:856-900 | Scaling keeps the vote properties and all reference counts. |
| PowerVotes.DestroyKeepsIff | msm/sde_power_handle.c:109-125 | Destroying a client keeps them if and only if it held no reference or another client holds one. |
| PowerVotes.MaxVoteIsMax | msm/sde_power_handle.c:856-900 | The bus vote is an upper bound of the client votes and is one of them. |
| PowerVotes.VotingUpdate | msm/msm_drv.c:1523-1570 | How one file's count changes the number of voting files. |
| PowerVotes.VotersHavePower | msm/msm_drv.c:1523-1570 | A file that voted for power has it, whatever other files and clients do. |
| PowerVotes.PowerHandle.MaxUsecase | msm/sde_power_handle.c:856-900 | The loop returns the highest vote. |
| PowerVotes.PowerHandle.Scale | msm/sde_power_handle.c:856-900 | Refused if and only if the client holds no reference outside an enable; otherwise only its vote changes, the bus vote is the highest valid vote, and the invariant is kept for votes from LOW to HIGH. |
| PowerVotes.PowerHandle.Enable | msm/sde_power_handle.c:917-1062 | Keeps the invariant and every other client; an enabled client has power; resources switch only on the first reference of all and the last, and only then the bus votes, the highest vote. |
| PowerVotes.DrmPower.Ioctl | msm/msm_drv.c:1523-1570 | The file's own count moves by one and not below zero; every file with a positive count has power; the client has one reference per such file. |
| PowerVotes.DrmPower.PostClose | msm/msm_drv.c:821-844 | Only this file's reference is given back: the others keep power, and the references still match. |
| BusQuota.SharesAddUp | msm/sde_power_handle.c:331-445 | The quotas of the RT paths, and of the NRT paths, are equal and add up to the class total minus a remainder smaller than the number of paths; without NRT paths the two totals are shared together, less 2^64 if and only if their sum wraps. |
| BusQuota.RunNeverWritesActive | msm/sde_power_handle.c:331-445 | With at least three use cases, after any requests the vector written next is not the active one, never use case 0, and in range. |
| BusQuota.RotationLeaves | msm/sde_power_handle.c:421-437 | The rotation goes to the next use case and from the last to 1; it leaves the active one if and only if there are at least three or it was 0. |
| BusQuota.TwoUsecasesCollide | msm/sde_power_handle.c:421-437 | With two use cases the second request overwrites the active vector. |
| BusQuota.AggregateCovers | msm/sde_power_handle.c:471-481 | For all demands each summed total is the clients' exact sum modulo 2^64; it equals the sum if and only if that fits in 64 bits, and then covers every client. |
| BusQuota.PeakCovers | msm/sde_power_handle.c:471-481 | The real-time peak is at least every client's peak and is one of them. |
| BusQuota.AddUp | msm/sde_power_handle.c:471-481 | The loop over clients computes these totals. |
| BusQuota.DataBus.SetQuota | msm/sde_power_handle.c:331-445 | For every layout: a disabled bus selects use case 0; an enabled one the next use case, never 0, rewriting only it with the totals in equal shares per class, where the real-time peak is the one asked for but at least 400000000; refusals and a division by zero change nothing, and which of them occurs. |
| BusQuota.DataBus.SwitchBus | msm/sde_power_handle.c:615-631 | Enabling votes the stored totals again, disabling withdraws them. |
| BusQuota.DataBus.Quotas | msm/sde_power_handle.c:380-419 | The loop computes every path's share. |
| EventClients.RunKeeps | msm/msm_drv.c:1177-1465 | Over any registrations (whose enable may fail), deregistrations and releases with disables succeeding: an event is enabled if and only if some client waits for it, hardware is called only on 0-to-1 and 1-to-0 edges, and no file has duplicate entries. |
| EventClients.RunServes | msm/msm_drv.c:1177-1465 | Whatever each single enable and disable call answers, an event some client waits for is enabled, and no file has duplicate entries. |
| EventClients.RegisterKeeps | msm/msm_drv.c:1218-1286 | Registration keeps the invariant on every path. |
| EventClients.DeregisterKeeps | msm/msm_drv.c:1288-1330 | Deregistration keeps it. |
| EventClients.ReleaseKeeps | msm/msm_drv.c:1427-1465 | Releasing a file with any number of entries keeps it. |
| EventClients.CountPositive | msm/msm_drv.c:1197-1216 | The count is positive if and only if an entry exists. |
| EventClients.EventList.CountClients | msm/msm_drv.c:1197-1216 | The loop counts the entries for the event and object. |
| EventClients.EventList.RegisterClient | msm/msm_drv.c:1218-1286 | When each code is returned: accepted if and only if supported, not a duplicate and somebody waits already or the enable succeeds; hardware is called exactly for the first client; an accepted client is appended and its event enabled, a refused one leaves no entry. |
| EventClients.EventList.DeregisterClient | msm/msm_drv.c:1288-1330 | When each code is returned; the entry, and no other, is gone; hardware is called exactly for the last client. |
| EventClients.EventList.ReleaseFile | msm/msm_drv.c:1427-1465 | The file's entries, and no others, are gone; exactly the events nobody else waits for are disabled, once each, whichever of the calls fail. |
| EventClients.ReleaseDisables | msm/msm_drv.c:1444-1462 | After n rounds the loop has disabled, once each, exactly the events of those rounds that nobody kept or still to come waits for. |
| EventRaces.RaceLosesEvent | msm/msm_drv.c:1218-1330 | An interleaving between the lock regions of two calls, all successful, that leaves a client waiting for a disabled event. |
| EventRaces.ApartStaysSteady | msm/msm_drv.c:1218-1330 | Under every interleaving of lock regions in which calls for the same event and object do not overlap: no duplicates, and an event no call works on is enabled if and only if somebody waits for it. |
| EventRaces.RestIff | msm/msm_drv.c:1218-1330 | Under every interleaving of any calls with any hardware answers: events no call works on are at all times enabled if and only if somebody waits for them, if and only if no call that is the last one on its event takes its last step on outdated knowledge. |
| EventRaces.EndsInStepIff | msm/msm_drv.c:1218-1330 | For each last step of a call, what the list and the hardware must look like before it for the event to be in step after it. |
| EventRaces.MoveKnows | msm/msm_drv.c:1218-1330 | What each call knows about its event between its lock regions, and that it leaves the event in step. |
| EventLog.RangeStart | msm/sde_dbg_evtlog.c:103-134 | The unsigned cursor arithmetic yields the first index at or after `next` within the capacity, and nothing if and only if all is dumped. |
| EventLog.RangeKeeps | msm/sde_dbg_evtlog.c:103-134 | A range computation keeps the cursors consistent with everything printed so far. |
| EventLog.NotYetDumped | msm/sde_dbg_evtlog.c:103-134 | The indices from the start of the range on are exactly those of the last 256 that were never printed. |
| EventLog.HoldsAfterLog | msm/sde_dbg_evtlog.c:57-100 | Storing at the count modulo 2048 keeps "the ring holds the last 2048 events". |
| EventLog.CopyData | msm/sde_dbg_evtlog.c:83-93 | The arguments before the limiter, at most as many as fit. |
| EventLog.EvtLog.Store | msm/sde_dbg_evtlog.c:57-100 | One event is appended to the history; the ring still holds its tail. |
| EventLog.EvtLog.Log | msm/sde_dbg_evtlog.c:57-100 | The stored entry carries exactly the call's fields and its arguments before the limiter. |
| EventLog.EvtLog.DumpLine | msm/sde_dbg_evtlog.c:136-179 | One line: the oldest undumped event within the capacity, with its original contents while the ring still holds it; nothing if and only if all is dumped. |
| EventLog.EvtLog.DumpAll | msm/sde_dbg_evtlog.c:181-194 | Even with events arriving between lines, the loop ends; the printed indices are exactly those of the last 256 at its start that no dump had printed, each once, oldest first, with their original contents while the ring holds them. |
| PropertyState.DirtySinceMeaning | msm/msm_prop.c:69-122 | The reference time of becoming dirty is the first mark since the last pop, and exists if and only if there is an unpopped mark. |
| PropertyState.MatchesMeaning | msm/msm_prop.c:69-122 | A matching dirty list holds exactly the properties with an unpopped mark, in order of first becoming dirty. |
| PropertyState.MarkKeeps | msm/msm_prop.c:103-122 | Marking keeps the list matching the history. |
| PropertyState.PopKeeps | msm/msm_prop.c:69-93 | Popping keeps the list matching the history. |
| PropertyState.PropertyHelper.Index | msm/msm_prop.c:305-343 | The rotating lookup finds the property if and only if it is installed, at its only index, and keeps the hint in range. |
| PropertyState.PropertyHelper.MarkDirty | msm/msm_prop.c:103-122 | Appends at most once; out-of-range indices change nothing. |
| PropertyState.PropertyHelper.AtomicSet | msm/msm_prop.c:359-419 | The value after resolving a blob, and dirty if and only if it changed or the property is force-dirty; an unknown property changes nothing. |
| PropertyState.PropertyHelper.SetDirty | msm/msm_prop.c:345-357 | An explicit mark. |
| PropertyState.PropertyHelper.PopDirty | msm/msm_prop.c:69-93 | The oldest dirty property, or -EAGAIN if and only if none is dirty. |
| PropertyState.PropertyHelper.Drain | msm/msm_prop.c:69-93 | Popping until -EAGAIN returns each property dirtied since its last pop exactly once, in order of first becoming dirty, and leaves none. |
| PropertyState.PropertyHelper.Reset | msm/msm_prop.c:482-513 | Default values and nothing dirty. |
| PropertyState.PropertyHelper.Duplicate | msm/msm_prop.c:515-543 | The copy has the values and nothing dirty; what is pending on the old state stays pending there, in order. |
| CeaBlocks.FindersAgreeIff | msm/sde_edid_parser.c:132-196 | For every extension block and tag, exactly when both walkers return the same block: by cases on the end offset and the revision, from the tags of the blocks in the collection and a last block one byte short. |
| CeaBlocks.WalkersDiffer | msm/sde_edid_parser.c:132-196 | Four blocks on which they differ, one for each way. |
| CeaBlocks.RawWalkerStaysIff | msm/sde_edid_parser.c:161-196 | The second walker's answer is decided by the 128 bytes of the block if and only if it has no collection or ends before it leaves the block; with an end offset up to 128 it always does. |
| CeaBlocks.FindersAgreeOnTiled | msm/sde_edid_parser.c:71-196 | On a collection that exactly tiles its bytes both return the first block with the tag. |
| CeaBlocks.WalkIsFirst | msm/sde_edid_parser.c:84-87 | The walk returns the first block with the tag of those it visits, or none. |
| CeaBlocks.AudioEndsIff | msm/sde_edid_parser.c:417-465 | For every input the loop ends if and only if no block is refused after something was gathered; the gathered bytes when it ends; with at most five blocks of at most 30 bytes it ends with their concatenation. |
| CeaBlocks.AudioOnTiled | msm/sde_edid_parser.c:417-465 | On a tiled collection these are exactly the blocks with the audio tag, in order. |
| CeaBlocks.AudioOutcome | msm/sde_edid_parser.c:442-463 | From any loop state: the number of rounds to the end and the result, or no end. |
| CeaBlocks.OneMoreBlock | msm/sde_edid_parser.c:456-462 | Taking one block changes neither the final result nor whether the loop ends. |
| CeaBlocks.PayloadMeans | msm/sde_edid_parser.c:456-457 | A payload is the bytes behind the header, as many as it says. |
| CeaBlocks.AudioMayHang | msm/sde_edid_parser.c:442-463 | A well-formed collection on which the loop never ends. |
| CeaBlocks.FindBlock | msm/sde_edid_parser.c:132-158 | The first walker's loop equals its specification. |
| CeaBlocks.FindBlockRaw | msm/sde_edid_parser.c:161-196 | The second walker's loop equals its specification. |
| CeaBlocks.EdidCtrl.ExtractAudio | msm/sde_edid_parser.c:417-465 | Reports whether the loop ends; size and buffer contents are the gathered bytes, zero after them. |
| CeaBlocks.EdidCtrl.CopyPayload | msm/sde_edid_parser.c:456-462 | Appends exactly the block's payload. |

## Left out

- Register programming, polling delays, sequencer memory and barriers of the RSC: only control flow, `power_collapse`, the footswitch flag and return codes are kept.
- RscDriver.RscPriv.EnterMode2: the row cites the v3 file; msm/sde_rsc_hw.c:526-585 has the same control flow at this level and is covered by the same member.
- RscCoordinator.CollapseAfterUpdate: the row cites the v3 file; msm/sde_rsc_hw.c:587-664 has the same control flow at this level, and the register sequences of the two files are not told apart.
- RscDriver.RscPriv.Trigger: bandwidth handshakes are left out; only the clock references are modelled.
- RscDriver.RscPriv.UpdateClient: the vblank CRTC output, event callbacks, timer programming and state values outside the four are left out; `master_drm` stays bound once it is.
- RscDriver.RscPriv.DestroyClient: the pointer to a destroyed primary client is an id that no client has; reading through it is not modelled.
- RscCoordinator.RunDominatesV2: needs hardware updates to succeed and only the primary to vote CMD, since a failed switch leaves the old state with the new vote; IDLE in v3 does not exclude an external CLK vote and nothing is claimed about it.
- LeaseManager.RunKeeps: a history that reads an unfilled plane slot ends there; when that happens is `RunDefinedIff`.
- LeaseManager.LeaseDriver.Notified: minors, device names, hooked file operations and DRM masters are left out; device-tree strings and mode objects are inputs. Unbinding a lease is not modelled.
- CommitMasks.PendingMasks.StartAtomic: blocking is a result instead of a sleep, and masks are sets of bit positions; the 32-bit width is not modelled.
- CommitMasks.Dispatch: queueing itself succeeds on a live thread; fences, atomic checks and hardware programming of the commit are not modelled.
- Hdcp2x.RunOrder: work items may happen in any order, more than the single worker allows; stream lists, timeouts and encryption levels are left out.
- PowerVotes.RunKeeps: failures of regulators, clocks and buses and their unwinding are left out, and counters do not overflow.
- BusQuota.DataBus.SetQuota: parsing of the bus tables and the bus framework behind them are not part of this model.
- EventClients.EventList.RegisterClient: each call is one atomic step; the steps between its lock regions are in `EventRaces`.
- EventRaces.RestIff: file release is not split into its lock regions, taking a client off finds it by file, event and object instead of by pointer, and event delivery is left out.
- EventLog.EvtLog.Log: filters, enable flags and text formatting are left out; fewer than 2^32 events. The debugfs handler in msm/sde_dbg.c that rewrites the cursors is not part of this model.
- PropertyState.PropertyHelper.AtomicSet: blob reference counts are left out.
- PropertyState.PropertyHelper.Duplicate: states are separate objects, so the shared list pointers during the copy are not modelled, and each state has its own search hint, on which no lookup result depends.
- CeaBlocks.FindBlockRaw: memory behind the extension block is arbitrary bytes; whether it may be read at all is not modelled.
- Null-pointer argument checks, logging and statistics everywhere.
- The PLL drivers, HDCP 1.x, GEM, VMA, SMMU, framebuffer, fbdev and debug-bus files: thin layers over services that are not shown, or tables.
- TrustZone, rpmh, the bus, regulator and clock frameworks: arbitrary or successful results, as each row says.
