# The MRP participant of Open-AVB, modelled and proved in Dafny

`daemons/mrpd` is an endpoint implementation of the Multiple Registration Protocol, clause 10 of IEEE 802.1Q-2011. It
keeps a database of attributes (VLAN identifiers for MVRP; talkers, listeners and domains for MSRP; services and MAC
addresses for MMRP), runs an applicant and a registrar state machine per attribute, packs what has to be said into PDUs,
and takes PDUs apart again. This project models that core and proves what holds of it over all inputs, all databases and
all runs:

- **State machines** (`Mrp`): the tables of the applicant and the registrar, and the guarantee that an applicant goes
  quiet only after two declarations.
- **Codec** (`MrpPdu`, `MrpPacker`, `MrpProgress`, `MvrpCodec`, `MvrpRoundTrip`, `MvrpProgress`, `MsrpCodec`,
  `MsrpRoundTrip`, `MsrpRoom`, `MsrpHeard`, `MsrpProgress`): what a PDU carries, and what fits into it, is defined by a
  rule on the attribute list alone, and decoding the emitted bytes is proved to yield just that. The decoder is total on
  arbitrary frames.
- **Participants** (`MrpParticipant`, `MvrpStation`, `MvrpPointwise`, `MvrpRuns`, `MvrpNotifications`, `MsrpStation`,
  `MsrpPointwise`, `MsrpRuns`): one event is a step of a state machine on values. Every step acts attribute by
  attribute, and the whole-run theorems follow: declarations persist, no transmit opportunity is lost, the shared leave
  timer is right, notifications are sound, a stream has one talker entry.
- **Two participants** (`TwoStations`, `LinkQueues`, `DelayedLink`, `DelayedRuns`, `MsrpDelivery`, `MsrpMissed`,
  `MsrpLink`, `MsrpTypeChange`, `MsrpDelayed`): one station's frame is the other's input. A quiet declaration is
  registered at the peer, in every run, for MVRP and for MSRP, at once and with any number of frames under way.
- **The code as it runs** (`AttribList`, `MvrpAttributes`, `MvrpList`, `MvrpNodes`, `GroupedList`, `MmrpList`,
  `BigEndian`, `ByteCounter`, `MvrpEmit`, `MvrpDaemon`, `MvrpReceive`, `MsrpBounds`, `MsrpEmit`, `MsrpOverrun`,
  `MsrpDaemon`, `MsrpReceive`): linked nodes, byte buffers filled by a cursor, databases swept in place, each proved to
  refine the state machine or the codec above. The buffer of the MSRP emitters is longer than what the source allocates,
  so that a write behind its end is carried out, and reported, instead of being ruled out.
- **Independent cores**: the queue between threads (`BoundedQueue`), the sorted EUI-64 array (`Eui64Set`), the
  scatter/gather Internet checksum (`Checksum`) and the igb driver's NVM checksum (`NvmChecksum`).

Where a property fails, the project says so with an input and gives the exact condition under which it holds:

- A LeaveAll expiry stops the join timer and so can strand an owed message (`LeaveAllExpiryLosesOpportunity`).
- An attribute in VP is not renewed by its own LeaveAll frame (`LeaveAllKeepsDeclarations`, in both applications).
- A PDU that is full silently leaves attributes out. Everything owed is heard if and only if the sizes of the vectors
  the list calls for add up to less than the PDU holds (`HeardIffRoomy`, in both applications).
- The MSRP emitters test for room at the wrong place for a first vector and not at all for a bare LeaveAll, and so write
  behind the 2000 bytes they allocate (`OverrunsExactly`, and for the whole PDU `TxInsideExactly`). 52 quiet Failed
  talkers with one destination and a LeaveAll expiry are enough; 51 are not (`OverrunIsReached`).
- With frames under way the two stations can be at rest while one has forgotten the other: after own LeaveAll in VP
  (`LeaveAllInVpFails`) and after local Leave in VN (`LeaveInVnFails`). Without these two transitions they cannot
  (`QuietMeansRegisteredDespiteDelay`, and `SettledMeansRegisteredDespiteDelay` for MSRP).
- A stream that changes between Advertise and Failed can miss a LeaveAll. It does so exactly if the entry is Failed and
  the frame carries the stream as Advertise (`MissesExactly`), and a run is safe exactly if that never happens
  (`SafeIffNeverMissed`).
- A peer's In or Mt under another talker type drops a registered stream (`TypeChangeDrops`).
- The two-declaration guarantee breaks on three transitions: own LeaveAll in VP, local Leave in VN, Leave heard in LA
  (`SkippingBreaksTheGuarantee`).
- Removing a key that is present next to all-ones keys can remove the wrong entry (`RemovalIsExact`).
- An empty buffer inside a scatter list can shift the checksum. The two functions agree for all contents exactly if
  every empty buffer that meets a residual byte has only empty buffers behind it (`AgreeExactly`).

Frames are byte sequences that read as zero past their end. Integers are unbounded; the widths of the source are subset
types (`u16`, `u32`, `byte`) or explicit remainders. Time is a parameter of every step. The tables of the state machines
follow the code where it departs from the standard.

## Model

| member | source | states |
|---|---|---|
| `ApplicantRuns.LevelBoundsDeclarations` | daemons/mrpd/mrp.c:536-890 | in every run the progress of an applicant (0 in VP and VN, 2 in QA and QP) is at most the number of declarations made or heard since the last Leave |
| `ApplicantRuns.TwoDeclarations` | daemons/mrpd/mrp.h:75-79 | in every run from VP or VN without one of three skipping transitions, reaching QA or QP takes at least two of: own mandatory Join or New, JoinIn heard, In heard point to point |
| `ApplicantRuns.NoLaWithoutLeave` | daemons/mrpd/mrp.c:546-890 | without a local Leave and without own LeaveAll no run gets into LA |
| `ApplicantRuns.TwoDeclarationsWithoutOwnLeave` | daemons/mrpd/mrp.c:536-890 | the two-declaration guarantee in every run without local Leave or own LeaveAll |
| `ApplicantRuns.SkippingBreaksTheGuarantee` | daemons/mrpd/mrp.c:588-673 | each of the three transitions excluded above (own LeaveAll in VP, local Leave in VN, Leave heard in LA) can be continued into a run that is in QA after one declaration only |
| `MrpPdu.UnpackEncode` | daemons/mrpd/mrp.h:177 | three events per byte: unpacking what was packed gives the events, and the value fits a byte |
| `MrpPdu.UnpackPack` | daemons/mrpd/mrp.h:177 | a packed list of events of any length, with its padding, unpacks to itself |
| `MrpPdu.UnpackEncode4` | daemons/mrpd/mrp.h:178-179 | four listener sub-states per byte: unpacking gives them back |
| `MrpPdu.UnpackPack4` | daemons/mrpd/mrp.h:178-179 | a packed list of sub-states of any length unpacks to itself |
| `MrpPdu.HeaderRoundTrip` | daemons/mrpd/mrp.h:182-188 | LeaveAll flag and number of values are read back from a vector header, which is never an end mark |
| `MrpPacker.PackAppend` | daemons/mrpd/mvrp.c:794-826 | packing in full groups of three as one goes is packing the whole list |
| `MrpPacker.Flush` | daemons/mrpd/mvrp.c:797-809 | writes one group behind those already packed; nothing before the vector and nothing behind the group changes |
| `MrpPacker.Push` | daemons/mrpd/mvrp.c:794-809 | one more event: the bytes written and the group being collected stand for the events so far |
| `MrpPacker.Finish` | daemons/mrpd/mvrp.c:818-826 | the last group: the buffer holds the packed events and the cursor stands behind them |
| `MvrpRoundTrip.VecDecodes` | daemons/mrpd/mvrp.c:494-606 | the bytes of a vector are read back as its flag, first value and events, and pass the length test |
| `MvrpRoundTrip.VectorsDecode` | daemons/mrpd/mvrp.c:494-607 | a list of vectors with end mark is heard, in order, as what they say; the cursor ends on the end mark |
| `MvrpRoundTrip.FrameDecodes` | daemons/mrpd/mvrp.c:385-640 | the whole frame around emittable vectors decodes without error to what they say |
| `MvrpRoundTrip.BareLeaveAllDecodes` | daemons/mrpd/mvrp.c:501-508 | the LeaveAll sent when nothing else is to be said is heard as one LeaveAll |
| `MvrpRoundTrip.VectorsShape` | daemons/mrpd/mvrp.c:642-885 | the LeaveAll flag is on the first vector or nowhere, and every vector is one the decoder accepts |
| `MvrpRoundTrip.VectorsAreCarried` | daemons/mrpd/mvrp.c:673-849 | the (VID, event) pairs of the vectors are those of the mandatory attributes and of flagged ones directly behind a consecutive VID, in list order |
| `MvrpRoundTrip.RoundTrip` | daemons/mrpd/mvrp.c:642-1005 | for every sorted list, decoding the frame that goes out yields LeaveAll (if flagged) and then exactly those pairs of the attributes looked at |
| `MvrpRoundTrip.FitsCarriesAll` | daemons/mrpd/mvrp.c:673-885 | if all that is owed fits, the vectors carry everything the list has to say |
| `MvrpRoundTrip.RoundTripFits` | daemons/mrpd/mvrp.c:887-1005 | then a frame goes out exactly if there is something to say, and it is heard as just that |
| `MvrpRoundTrip.FitsExactly` | daemons/mrpd/mvrp.c:642-885 | all that is owed fits if and only if the sizes of the runs the riding rule forms on the list add up to less than what the PDU holds |
| `MvrpRoundTrip.SmallDatabaseFits` | daemons/mrpd/mvrp.c:642-885 | for 395 VIDs there is room, whatever they have to send, and they fit if their messages are known |
| `MvrpRoundTrip.ScatteredFitsExactly` | daemons/mrpd/mvrp.c:642-885 | and the bound is tight: VIDs that all owe and never coalesce fit if and only if there are at most 395 |
| `MvrpRoundTrip.LeftUnheard` | daemons/mrpd/mvrp.c:673-885 | an owed attribute the emitter did not reach is not heard |
| `MvrpRoundTrip.HeardIffPlanned` | daemons/mrpd/mvrp.c:887-1005 | everything owed is heard if and only if the emitter gets to the end of the list and the message is short enough |
| `MvrpRoundTrip.HeardIffRoomy` | daemons/mrpd/mvrp.c:887-1005 | everything owed is heard if and only if that sum over the list leaves room |
| `MvrpProgress.VectorsAdvance` | daemons/mrpd/mvrp.c:494-607 | on every frame each vector takes the cursor five bytes ahead at least, inside the frame, to where decoding ends |
| `MvrpProgress.MessagesAdvance` | daemons/mrpd/mvrp.c:465-632 | each turn of the message loop takes the cursor two bytes ahead at least |
| `MvrpProgress.DecodingIsBounded` | daemons/mrpd/mvrp.c:465-632 | so the loops turn at most half, and a fifth, as often as the frame has bytes |
| `MvrpStation.DecodeDispatchable` | daemons/mrpd/mvrp.c:544-597 | whatever the frame, only the six events and VIDs up to 0xFFF reach the dispatcher |
| `MvrpPointwise.SortedListIsMap` | daemons/mrpd/mvrp.c:76-141 | a sorted list is determined by what lookup finds in it |
| `MvrpPointwise.StepSorted` | daemons/mrpd/mvrp.c:157-356 | every event keeps the list strictly sorted by VID |
| `MvrpPointwise.StepIsPointwise` | daemons/mrpd/mvrp.c:157-356 | what an event does to one VID depends on the state of that VID only |
| `MvrpPointwise.RunIsPointwise` | daemons/mrpd/mvrp.c:157-356 | the same for whole runs |
| `MvrpRuns.DeclarationsPersist` | daemons/mrpd/mvrp.c:157-356 | in every run a VID is in the database in VP, VN, AN, AA, QA, AP or QP if and only if the last local request for it was New or Join |
| `MvrpRuns.LeavingLasts` | daemons/mrpd/mvrp.c:1296-1338 | an entry in LA stays, unreclaimed, until a transmission or a local request takes it out of LA |
| `MvrpRuns.TransmitRearmsExactly` | daemons/mrpd/mvrp.c:213-237 | after a transmit event the join timer runs if and only if some applicant owes a message |
| `MvrpRuns.JoinTimerCoversOwed` | daemons/mrpd/mvrp.c:193-333 | every event but the LeaveAll expiry keeps: who owes a message has a join timer |
| `MvrpRuns.NoLostTransmitOpportunity` | daemons/mrpd/mrp.c:338-365 | so it holds in every run without LeaveAll expiry |
| `MvrpRuns.LeaveAllExpiryLosesOpportunity` | daemons/mrpd/mvrp.c:168-192 | a LeaveAll expiry keeps it if and only if no applicant is in VO, VP, VN, LA, AO or QO |
| `MvrpRuns.TransmitLowersRankSum` | daemons/mrpd/mrp.c:892-916 | a transmit event lowers the summed rank of the list strictly if anyone owes a message |
| `MvrpRuns.TransmitLowersEveryRank` | daemons/mrpd/mrp.c:705-777 | and every single rank, so that at rank one the timer is not rearmed |
| `MvrpRuns.ThreeTransmitsSettle` | daemons/mrpd/mvrp.c:213-237 | after three transmit events in a row nothing is owed and no timer rearmed, whatever the database |
| `MvrpRuns.StepLeaveTimer` | daemons/mrpd/mrp.c:929-947 | an entry that gets into LV (re)starts the one leave timer; one that stays there never shortens it |
| `MvrpRuns.LeaveTimerRuns` | daemons/mrpd/mrp.c:367-393 | in every run any registrar in LV means the leave timer is running |
| `MvrpRuns.DeadlineCovers` | daemons/mrpd/mrp.c:367-393 | the deadline is at least the full leave time after each LV entry came to be |
| `MvrpRuns.FullLeaveTime` | daemons/mrpd/mvrp.c:238-252 | if expiry comes at or after the deadline, no attribute goes from LV to MT sooner than the leave time after it entered LV |
| `MvrpNotifications.NotesArePointwise` | daemons/mrpd/mvrp.c:343-353 | the notifications about a VID are determined by the state of that VID and the event |
| `MvrpNotifications.NotificationsSound` | daemons/mrpd/mvrp.c:343-353 | in every run a VID that is IN was last notified as New or Join, and one that was mentioned and is gone as Leave |
| `TwoStations.HearsIsPointwise` | daemons/mrpd/mvrp.c:385-640 | a frame's effect on one VID is that of the frame's events on that VID alone |
| `TwoStations.HearingNeverEmpties` | daemons/mrpd/mrp.c:918-1040 | no frame whatever takes a registrar to MT or removes an entry that is not MT |
| `TwoStations.PairsDelivered` | daemons/mrpd/mvrp.c:465-632 | of a carried list a VID hears its own event once, or nothing if that was optional |
| `TwoStations.Transmission` | daemons/mrpd/mvrp.c:385-1005 | one transmission end to end through the bytes, as one VID of the receiver sees it |
| `TwoStations.LeavingIsHeard` | daemons/mrpd/mvrp.c:213-1005 | an entry in LA, at a transmit opportunity with room for what is owed: the frame goes out, a peer decodes Leave for the VID from it, and no peer registers the VID after it |
| `TwoStations.LeaveAllKeepsDeclarations` | daemons/mrpd/mvrp.c:168-192 | for all databases: after the one frame of a LeaveAll expiry a VID is registered at the receiver if and only if the sender holds it in VN, AN, AA, QA, AP or QP |
| `TwoStations.NoRegistrarEmptied` | daemons/mrpd/mvrp.c:494-607 | and at no point of any frame whatever does a registrar that holds a VID drop to MT |
| `TwoStations.TalkerStep` | daemons/mrpd/mvrp.c:157-356 | whatever the talker does keeps the two stations in agreement |
| `TwoStations.ObserverStep` | daemons/mrpd/mvrp.c:157-356 | and whatever the observer does short of asking for the VID |
| `TwoStations.NetInvHolds` | daemons/mrpd/mvrp.c:157-356 | so they agree in every run |
| `TwoStations.QuietMeansRegistered` | daemons/mrpd/mvrp.c:157-885 | in every run of two stations on a lossless link where PDUs fit, a talker in QA or AN for a VID is registered (IN) at the observer |
| `TwoStations.SmallQuietMeansRegistered` | daemons/mrpd/mvrp.c:157-885 | the same with no hypothesis about PDUs for stations that never hold more than 395 VIDs |
| `LinkQueues.TalkerSends` | daemons/mrpd/mrp.c:705-861 | a talker that is active after sending and announced, or left it at an earlier declaration, keeps the invariant with the frames under way |
| `LinkQueues.ObserverSends` | daemons/mrpd/mrp.c:705-861 | so does an observer that says In only of what it registers and stops to register only with a LeaveAll |
| `LinkQueues.TalkerHears` | daemons/mrpd/mrp.c:778-890 | so does a frame that brings the talker to rest only by In and never with a LeaveAll |
| `LinkQueues.ObserverHears` | daemons/mrpd/mrp.c:918-1040 | so does one that has the effect on the registrar that it is counted for |
| `DelayedLink.TransmissionTells` | daemons/mrpd/mvrp.c:642-1005 | what a frame says about one VID, whenever and by whomever it is received |
| `DelayedLink.StepKeeps` | daemons/mrpd/mvrp.c:157-1005 | every event of a station and every arrival of a frame keeps the agreement of the two stations and the frames under way, except own LeaveAll in VP and local Leave in VN |
| `DelayedLink.QuietWillBeRegistered` | daemons/mrpd/mvrp.c:157-1005 | in every run over a link with any number of frames under way each way, without those two transitions: a talker in QA or AN to whom nothing is under way is registered at the observer once the frames to it have arrived |
| `DelayedLink.QuietMeansRegisteredDespiteDelay` | daemons/mrpd/mvrp.c:157-1005 | so with nothing under way it is registered (IN) |
| `DelayedRuns.LeaveAllInVpFails` | daemons/mrpd/mrp.c:588-673 | with own LeaveAll in VP allowed, and everything else as above, a run of the two stations ends in QA, nothing under way, and not registered |
| `DelayedRuns.LeaveInVnFails` | daemons/mrpd/mrp.c:588-673 | the same with local Leave in VN allowed |
| `AttribList.List.MutuallyInverse` | daemons/mrpd/mvrp.c:89-141 | in a linked list prev and next are mutually inverse |
| `AttribList.List.WalkVisits` | daemons/mrpd/mvrp.c:76-87 | following next from the head, k steps reach the k-th node, and null once there are no more: there is no cycle |
| `AttribList.List.InsertFirst` | daemons/mrpd/mvrp.c:130-133 | the first node of an empty list |
| `AttribList.List.InsertBefore` | daemons/mrpd/mvrp.c:111-118 | splicing in front of a node, with the head if need be; links stay inverse, contents gain one element there |
| `AttribList.List.InsertAfter` | daemons/mrpd/mvrp.c:105-107 | splicing behind a node |
| `AttribList.List.Unlink` | daemons/mrpd/mvrp.c:1296-1324 | taking a node out, and the node to go on with |
| `MvrpAttributes.InsertedSorted` | daemons/mrpd/mvrp.c:89-141 | adding a VID that is not there keeps the list strictly sorted and makes it findable |
| `MvrpAttributes.PutAt` | daemons/mrpd/mvrp.c:89-141 | inserting where it belongs is putting it into the map |
| `MvrpAttributes.DropAt` | daemons/mrpd/mvrp.c:1296-1324 | cutting a node out is dropping it from the map |
| `MvrpAttributes.FindIndex` | daemons/mrpd/mvrp.c:76-87 | lookup on the list is lookup in the map |
| `MvrpList.Lookup` | daemons/mrpd/mvrp.c:76-87 | the walk returns the node of the VID, or null exactly if there is none |
| `MvrpList.Position` | daemons/mrpd/mvrp.c:96-104 | the walk stops at the first node that is not smaller, or at the last |
| `MvrpList.Stitch` | daemons/mrpd/mvrp.c:99-121 | the new node goes before or behind it, and the list stays linked |
| `MvrpList.Add` | daemons/mrpd/mvrp.c:89-141 | mvrp_add on nodes: linked, and contents those of the sorted insertion |
| `MvrpList.ConditionalReclaim` | daemons/mrpd/mvrp.c:1296-1324 | removes the node exactly if registrar MT and applicant VO, AO or QO; returns the node behind it |
| `MvrpList.Reclaim` | daemons/mrpd/mvrp.c:1326-1338 | mvrp_reclaim on nodes: the walk leaves a linked list of exactly what is needed, in order |
| `MvrpNodes.ApplyIsLocal` | daemons/mrpd/mvrp.c:76-141 | each operation on the list (look up or add, change in place, reclaim one, reclaim all) does to one VID what it says of that VID, and nothing to others |
| `MvrpNodes.ListIsMap` | daemons/mrpd/mvrp.c:76-356 | after any operations in any order and number the list is strictly sorted, and what it holds of each VID is what they did to that VID |
| `MvrpNodes.Perform` | daemons/mrpd/mvrp.c:76-141 | each operation on the linked nodes keeps the list linked and does to its contents what it does to the attributes in list order |
| `MvrpNodes.PerformAll` | daemons/mrpd/mvrp.c:76-356 | any sequence of them from the empty list on leaves a linked list with the contents of that sequence |
| `GroupedList.InsertedInOrder` | daemons/mrpd/mmrp.c:87-187 | adding keeps attributes of one type together and each type sorted |
| `GroupedList.KeptIn` | daemons/mrpd/mmrp.c:1771-1798 | reclaiming keeps exactly the attributes somebody declares or registers |
| `GroupedList.Anchor` | daemons/mrpd/mmrp.c:95-171 | the walk of the add function finds the node, and the side of it, where the insertion goes |
| `GroupedList.Add` | daemons/mrpd/mmrp.c:87-187 | add on nodes: linked, and contents those of the type-grouped insertion |
| `GroupedList.ReclaimOne` | daemons/mrpd/mmrp.c:1771-1798 | one step of the reclaim walk |
| `GroupedList.Reclaim` | daemons/mrpd/mmrp.c:1771-1798 | the whole walk leaves a linked list of what is kept, in order |
| `MmrpList.MemcmpIsNumeric` | daemons/mrpd/mmrp.c:133-145 | memcmp on addresses of one length is the order of the numbers they spell |
| `MmrpList.KeysApart` | daemons/mrpd/mmrp.c:60-85 | type and rank identify a key |
| `MmrpList.AddIsPut` | daemons/mrpd/mmrp.c:87-187 | adding an absent key keeps the order and is putting it into the map |
| `MmrpList.KeptInOrder` | daemons/mrpd/mmrp.c:1771-1798 | reclaiming keeps grouping, order and uniqueness |
| `MmrpList.ReclaimIsFilter` | daemons/mrpd/mmrp.c:1771-1798 | for the map, reclaiming forgets just the reclaimable keys |
| `MmrpList.Lookup` | daemons/mrpd/mmrp.c:60-85 | finds the node of the key, or null exactly if the map has none |
| `MmrpList.AddNew` | daemons/mrpd/mmrp.c:87-187 | mmrp_add on nodes as an update of the map |
| `MmrpList.ReclaimAll` | daemons/mrpd/mmrp.c:1771-1798 | mmrp_reclaim on nodes as a filter of the map |
| `ByteCounter.IncrementFrame` | daemons/mrpd/mmrp.c:422-437 | the first byte is never carried into, bytes behind the counter never change |
| `ByteCounter.IncrementCounts` | daemons/mrpd/msrp.c:642-657 | the increment adds one to the number the other bytes spell, and wraps to zero at its end |
| `ByteCounter.IncrementInPlace` | daemons/mrpd/msrp.c:642-657 | the loop on the array does just that |
| `MvrpEmit.PackRiders` | daemons/mrpd/mvrp.c:743-816 | takes the run of flagged consecutive VIDs behind the first, clears their flags, packs their events; fails only on an unknown message or for want of room |
| `MvrpEmit.PackRun` | daemons/mrpd/mvrp.c:693-826 | the same with the first VID |
| `MvrpEmit.EmitVector` | daemons/mrpd/mvrp.c:685-844 | writes the vector of a run if and only if it is writable at the cursor, and nothing before the cursor |
| `MvrpEmit.EmitOwed` | daemons/mrpd/mvrp.c:679-848 | one owed attribute: the vector written and what is still to come make up the plan |
| `MvrpEmit.EmitVectors` | daemons/mrpd/mvrp.c:673-849 | the loop writes the planned vectors, or fails exactly if there is no plan |
| `MvrpEmit.WriteLeaveAll` | daemons/mrpd/mvrp.c:855-865 | the bare LeaveAll vector |
| `MvrpEmit.EmitVidVectors` | daemons/mrpd/mvrp.c:642-885 | the buffer holds the message of the plan; only flags of attributes were cleared |
| `MvrpEmit.SendPdu` | daemons/mrpd/mvrp.c:887-1005 | the frame sent, if any, is the codec's frame for these attributes |
| `MvrpDaemon.Database.SweepBoth` | daemons/mrpd/mvrp.c:172-184 | both machines of every attribute, and the leave timer |
| `MvrpDaemon.Database.SweepApplicants` | daemons/mrpd/mvrp.c:213-226 | the applicants of every attribute, and whether one wants another opportunity |
| `MvrpDaemon.Database.GenerateNotifications` | daemons/mrpd/mvrp.c:343-353 | notifies every flagged attribute in list order and leaves every flag clear |
| `MvrpDaemon.Database.TxPdu` | daemons/mrpd/mvrp.c:887-1005 | sends the codec's frame, clears the LeaveAll flag, and changes no state that matters between events |
| `MvrpDaemon.Database.SendLeaveAll` | daemons/mrpd/mvrp.c:186-191 | the LeaveAll machine's two events around the transmission: the PDU is flagged, the machine is passive again |
| `MvrpDaemon.Database.OnLeaveAllExpiry` | daemons/mrpd/mvrp.c:168-192 | does what the station's step says: state, frame, notifications |
| `MvrpDaemon.Database.OnLeaveAllHeard` | daemons/mrpd/mvrp.c:193-212 | likewise for a received LeaveAll |
| `MvrpDaemon.Database.OnTxOpportunity` | daemons/mrpd/mvrp.c:213-237 | likewise for a transmit opportunity, with the rearming of the join timer |
| `MvrpDaemon.Database.OnPeriodic` | daemons/mrpd/mvrp.c:253-270 | likewise for the periodic timer |
| `MvrpDaemon.Database.ReclaimAll` | daemons/mrpd/mvrp.c:1326-1338 | the walk that changes the list under itself keeps exactly what is needed and notifies the rest |
| `MvrpDaemon.Database.OnReclaim` | daemons/mrpd/mvrp.c:1326-1338 | does what the station's step says |
| `MvrpDaemon.Database.OnLeaveExpiry` | daemons/mrpd/mvrp.c:238-252 | likewise for the leave timer, whose walk expires and reclaims at once |
| `MvrpDaemon.Database.Lookup` | daemons/mrpd/mvrp.c:76-87 | the walk finds the first attribute with the VID, or none |
| `MvrpDaemon.Database.Add` | daemons/mrpd/mvrp.c:89-141 | the walk to the first VID that is not smaller, or to the last, and stitching in before or behind it is the sorted insertion |
| `MvrpDaemon.Database.LookupOrAdd` | daemons/mrpd/mvrp.c:284-293 | afterwards the VID stands at the index returned, in a list that is in order and differs at most by a fresh attribute for it |
| `MvrpDaemon.Database.Handle` | daemons/mrpd/mvrp.c:295-328 | the two machines on an attribute event, local requests remapped for the registrar |
| `MvrpDaemon.Database.OnAttr` | daemons/mrpd/mvrp.c:271-333 | does what the station's step says for attribute events |
| `MvrpDaemon.Database.Event` | daemons/mrpd/mvrp.c:157-356 | mvrp_event refines the station: for every event the new state, the frame sent and the notifications are those of its step, and every notify flag is clear |
| `MvrpReceive.Dispatch` | daemons/mrpd/mvrp.c:562-596 | one decoded event goes to the database |
| `MvrpReceive.RecvEvent` | daemons/mrpd/mvrp.c:544-597 | one event of a vector, with VIDs above 0xFFF passed over |
| `MvrpReceive.RecvVector` | daemons/mrpd/mvrp.c:515-599 | the events of a vector, dispatched in order |
| `MvrpReceive.RecvVectors` | daemons/mrpd/mvrp.c:494-607 | the vectors of a message up to the end mark, LeaveAll heard once a frame |
| `MvrpReceive.RecvMessages` | daemons/mrpd/mvrp.c:465-632 | the messages of a frame, malformed and unknown ones included |
| `MvrpReceive.RecvMsg` | daemons/mrpd/mvrp.c:385-640 | mvrp_recv_msg on the database refines Receive on the station for every byte sequence |
| `MsrpRoundTrip.FirstValueHeld` | daemons/mrpd/msrp.c:2255-2301 | the first value of every type is read back field for field, as far as it is on the wire |
| `MsrpRoundTrip.VecHeld` | daemons/mrpd/msrp.c:1006-1585 | a vector with events and, for listeners, sub-states is read back as what it says |
| `MsrpRoundTrip.VectorsDecode` | daemons/mrpd/msrp.c:1006-1585 | a list of vectors is heard in order, LeaveAll once a type, and the cursor ends behind them |
| `MsrpRoundTrip.BareDecodes` | daemons/mrpd/msrp.c:1053-1076 | the bare LeaveAll of each type is heard as one LeaveAll of that type |
| `MsrpRoundTrip.MessageLayout` | daemons/mrpd/msrp.c:659-715 | an emitted message passes the attribute list length test |
| `MsrpRoundTrip.MessageDecodes` | daemons/mrpd/msrp.c:799-1867 | a message followed by anything decodes to its vectors and then the rest |
| `MsrpRoundTrip.VectorsShape` | daemons/mrpd/msrp.c:2163-2868 | the LeaveAll flag is on the first vector or nowhere, and every vector is one the decoder accepts |
| `MsrpRoundTrip.VectorsSize` | daemons/mrpd/msrp.c:2182-2868 | the vectors of an emitter that does not give up end, with the end mark, within the room it was given |
| `MsrpRoundTrip.VectorsAreCarried` | daemons/mrpd/msrp.c:2163-2868 | the attributes on the wire are, in list order, the mandatory ones and the flagged ones that have the value due directly behind a carried one |
| `MsrpRoundTrip.RoundTrip` | daemons/mrpd/msrp.c:2870-2969 | whatever the list, a frame that goes out is heard type by type as LeaveAll (if flagged) and exactly what that emitter put on the wire, Ignore excepted |
| `MsrpRoundTrip.SentIsCarried` | daemons/mrpd/msrp.c:2182-2868 | what each emitter put on the wire is what is carried of the attributes it looked at |
| `MsrpRoundTrip.RoundTripComplete` | daemons/mrpd/msrp.c:2870-2969 | with room for all that is owed, a frame is heard as exactly what the attribute list has to say |
| `MsrpRoundTrip.DecodeDispatchable` | daemons/mrpd/msrp.c:717-1881 | whatever the frame, only the six events and, for listeners, sub-states 1 to 3 reach the dispatcher |
| `MsrpProgress.VectorsAdvance` | daemons/mrpd/msrp.c:847-1003 | on every frame each vector takes the cursor six bytes ahead at least, inside the frame, to where decoding ends |
| `MsrpProgress.MessagesNext` | daemons/mrpd/msrp.c:799-1867 | the decoder goes on from each position the message loop is said to stand at |
| `MsrpProgress.MessagesAdvance` | daemons/mrpd/msrp.c:799-1867 | each turn of the message loop takes the cursor two bytes ahead at least |
| `MsrpProgress.DecodingIsBounded` | daemons/mrpd/msrp.c:799-1867 | so the loops turn at most half, and a sixth, as often as the frame has bytes |
| `MsrpRoom.FitsExactly` | daemons/mrpd/msrp.c:2182-2969 | all that is owed goes out if and only if the sizes of the messages the list calls for leave each emitter the room it asks for and the end mark its two bytes |
| `MsrpRoom.SmallDatabaseFits` | daemons/mrpd/msrp.c:2870-2969 | for 51 attributes there is room, whatever they are and have to send, and they fit if their messages are known |
| `MsrpRoom.ScatteredFitsExactly` | daemons/mrpd/msrp.c:2870-2969 | and the bound is tight: Failed talkers of which no two are consecutive fit under a LeaveAll if and only if there are at most 51 |
| `MsrpHeard.HeardIffRoomy` | daemons/mrpd/msrp.c:717-2969 | everything owed is heard if and only if those sums over the list leave room |
| `MsrpRuns.MergeKeepsKey` | daemons/mrpd/msrp.c:276-369 | a merge never changes what an entry is about |
| `MsrpRuns.MergeShows` | daemons/mrpd/msrp.c:298-319 | after it a talker entry has the declaration's type and failure information |
| `MsrpRuns.MergeKeepsDefinition` | daemons/mrpd/msrp.c:298-319 | and its own definition of the stream |
| `MsrpRuns.StepUnique` | daemons/mrpd/msrp.c:374-614 | every event leaves at most one entry a key |
| `MsrpRuns.StepComes` | daemons/mrpd/msrp.c:374-614 | every entry after an event was there before unchanged, or shows the declaration just made about it |
| `MsrpRuns.AddedAt` | daemons/mrpd/msrp.c:164-274 | a new entry is found where it was put |
| `MsrpRuns.OneEntryPerKey` | daemons/mrpd/msrp.c:133-369 | in every run no two entries share a key: a stream has one talker entry, Advertise or Failed, one listener entry, a class one domain entry |
| `MsrpRuns.TalkerShowsLatest` | daemons/mrpd/msrp.c:499-591 | in every run a talker entry's type and failure information are those of the latest talker event for its stream |
| `MsrpRuns.DeclarationFound` | daemons/mrpd/msrp.c:534-591 | what is found of a key after a declaration: the merged entry, machines moved, unless nobody needs it |
| `MsrpRuns.DefinitionSticks` | daemons/mrpd/msrp.c:276-369 | while an entry is there no declaration changes its stream's definition |
| `MsrpRuns.ListenerWaitsForTalker` | daemons/mrpd/msrp.c:320-343 | a listener takes a new sub-state if and only if it was not asking, failed, without a known talker |
| `MsrpRuns.TypeChangeDrops` | daemons/mrpd/msrp.c:315-318 | In or Mt for a registered talker loses it if and only if its type changed and the applicant is in VO, AO or QO, or on Mt in LO |
| `MsrpPointwise.OtherKeys` | daemons/mrpd/msrp.c:534-591 | a declaration leaves the entries of all other keys as they are |
| `MsrpPointwise.StepIsLocal` | daemons/mrpd/msrp.c:374-614 | what an event does to one key is a function of its entry, and of whether a listener's talker is known |
| `MsrpPointwise.HearIsLocal` | daemons/mrpd/msrp.c:717-1881 | the same for one decoded event, which keeps one entry a key |
| `MsrpPointwise.HearsKeep` | daemons/mrpd/msrp.c:717-1881 | a property of a key that no event of a frame destroys survives the frame |
| `MsrpDelivery.HeardOnce` | daemons/mrpd/msrp.c:2870-2969 | what must be sent of an attribute is heard once, and nothing later in the frame is about it |
| `MsrpDelivery.FrameTells` | daemons/mrpd/msrp.c:717-2969 | if all that is owed fits, the frame decodes to exactly what the list has to say, and where none goes out there is nothing to say |
| `MsrpDelivery.DeliveryHears` | daemons/mrpd/msrp.c:717-2969 | so the receiver of the bytes hears just that |
| `MsrpDelivery.DeclarationArrives` | daemons/mrpd/msrp.c:374-614 | for all databases: one frame registers at the receiver every declaration that had to be announced, with its type and failure information |
| `MsrpDelivery.LeaveAllSettles` | daemons/mrpd/msrp.c:422-446 | what a LeaveAll for a type brings about, and nothing in the frame undoes, holds after the frame |
| `MsrpDelivery.LeaveAllKeepsDeclarations` | daemons/mrpd/msrp.c:391-421 | for all databases: after the one frame of a LeaveAll expiry a key is registered at the receiver if and only if the sender holds it in VN, AN, AA, QA, AP or QP and it is no listener to be ignored |
| `MsrpMissed.MissesExactly` | daemons/mrpd/msrp.c:315-446 | for all databases: after a peer's LeaveAll frame an applicant that was in AN is still in AN if and only if its entry is Failed and the frame carries its stream as Advertise |
| `MsrpLink.TalkerTransmits` | daemons/mrpd/msrp.c:447-478 | the talker's transmissions keep the two stations in agreement |
| `MsrpLink.ObserverTransmits` | daemons/mrpd/msrp.c:391-478 | and so do the observer's, for AN unless the talker misses the LeaveAll |
| `MsrpLink.NetInvHolds` | daemons/mrpd/msrp.c:374-614 | so they agree in every run |
| `MsrpLink.SettledMeansRegistered` | daemons/mrpd/msrp.c:374-2969 | in every run of two MSRP stations on a lossless link where PDUs fit, an applicant in QA is registered (IN) at the observer |
| `MsrpLink.MissingIsUnsafe` | daemons/mrpd/msrp.c:315-446 | a LeaveAll the talker misses leaves it in AN and not registered |
| `MsrpLink.SafeIffNeverMissed` | daemons/mrpd/msrp.c:374-2969 | in every run: an applicant in QA or AN is registered at all points of the run if and only if the talker never misses a LeaveAll |
| `MsrpLink.OneTypeIsNeverMissed` | daemons/mrpd/msrp.c:374-2969 | which it never does if all local requests for the stream are of one type |
| `MsrpLink.SmallSettledMeansRegistered` | daemons/mrpd/msrp.c:374-2969 | the QA half with no hypothesis about PDUs for stations that never hold more than 51 attributes |
| `MsrpTypeChange.TypeChangeBreaksAnnounced` | daemons/mrpd/msrp.c:422-446 | such a miss is reached: a run of two stations to a state in which the talker is in AN and the observer does not register the stream |
| `MsrpDelayed.TalkerFrame` | daemons/mrpd/msrp.c:374-2969 | what a talker's frame does to whichever station it arrives at, and whenever: New and Join register the key, a frame sent in QA leaves a registration alone |
| `MsrpDelayed.ObserverFrame` | daemons/mrpd/msrp.c:374-2969 | what an observer's frame does to whichever talker it arrives at: only In brings it to QA, and a LeaveAll takes it from there, and from AN unless it misses |
| `MsrpDelayed.StepKeeps` | daemons/mrpd/msrp.c:374-2969 | every event of a station and every arrival of a frame keeps the agreement of the two stations and the frames under way, except own LeaveAll in VP and local Leave in VN |
| `MsrpDelayed.SettledWillBeRegistered` | daemons/mrpd/msrp.c:374-2969 | in every run over a link with any number of frames under way each way, without those two transitions: a talker in QA to whom nothing is under way is registered at the observer once the frames to it have arrived; and one in AN, if no LeaveAll that arrived missed it |
| `MsrpDelayed.SettledMeansRegisteredDespiteDelay` | daemons/mrpd/msrp.c:374-2969 | so with nothing under way it is registered (IN) |
| `MsrpEmit.PackRiders` | daemons/mrpd/msrp.c:2348-2428 | takes the run of flagged attributes with the values due behind the first and packs their events; fails only on an unknown message or for want of room; a lone event is written without a test |
| `MsrpEmit.PackSubs` | daemons/mrpd/msrp.c:2749-2804 | packs the sub-states of a listener vector behind its events, a byte that is not full without a test for room |
| `MsrpEmit.EmitVector` | daemons/mrpd/msrp.c:2253-2456 | writes the vector of a run if and only if it can be written at the cursor; otherwise the first value is in place all the same. No write lies behind the end of the buffer if and only if what is written untested ends there |
| `MsrpEmit.EmitVectors` | daemons/mrpd/msrp.c:2231-2460 | the loop of an emitter writes the planned vectors, or fails exactly if there is no plan; only its first vector can leave the buffer |
| `MsrpEmit.FlagListeners` | daemons/mrpd/msrp.c:2538-2547 | flags every listener and nothing else |
| `MsrpEmit.EmitBare` | daemons/mrpd/msrp.c:2466-2489 | the bare LeaveAll, written without a test for room, on the zeroes the buffer was cleared to |
| `MsrpEmit.EmitMessage` | daemons/mrpd/msrp.c:2182-2868 | one emitter: the buffer holds its message, with the list length, or nothing, up to the length it returns; and whether it stayed inside the buffer, which it did if and only if EmitterInside says so of kind, list and room |
| `MsrpEmit.VectorsAgree` | daemons/mrpd/msrp.c:2870-2969 | flags cleared by the emitters of other types do not change what an emitter plans |
| `MsrpEmit.InsideAgrees` | daemons/mrpd/msrp.c:2870-2969 | flags cleared by the emitters of other types do not change where an emitter writes |
| `MsrpEmit.EmitMessages` | daemons/mrpd/msrp.c:2910-2935 | the emitters one after the other write the planned messages, or one fails exactly if the plan does; and whether all stayed inside the buffer |
| `MsrpEmit.SendPdu` | daemons/mrpd/msrp.c:2870-2969 | the frame sent, if any, is the codec's frame for these attributes; the emitters stayed inside the buffer if and only if TxInside holds of the list |
| `MsrpOverrun.OverrunsExactly` | daemons/mrpd/msrp.c:1884-2868 | when an emitter writes behind its room, in numbers: with a bare LeaveAll asked for and nothing found, for 28 to 32 bytes (Advertise), 37 to 41 (Failed), 13 to 15 (Listener), 5 to 11 (Domain); with something owed, for 31, 40, no number, and 8 to 10 |
| `MsrpOverrun.SentIsInside` | daemons/mrpd/msrp.c:2870-2969 | a PDU that goes out was written inside the buffer |
| `MsrpOverrun.RoomyIsInside` | daemons/mrpd/msrp.c:2870-2969 | and so is everything that is written where there is room for all that is owed |
| `MsrpOverrun.PlanReaches` | daemons/mrpd/msrp.c:2182-2868 | how far an emitter gets, or that it gives up, is a function of its room and of the lengths of the runs the riding rule forms on the list |
| `MsrpOverrun.TxInsideExactly` | daemons/mrpd/msrp.c:2870-2969 | for every list of known messages: all emitters stay inside the buffer if and only if those lengths, each emitter starting where they put it, say so |
| `MsrpOverrun.ScatteredInsideExactly` | daemons/mrpd/msrp.c:2870-2969 | under a LeaveAll, Failed talkers of which no two are consecutive keep the emitters inside if and only if there are at most 51 |
| `MsrpOverrun.OverrunIsReached` | daemons/mrpd/msrp.c:391-2969 | after declaring n Failed talkers with one destination and two transmissions all are in QA, and the LeaveAll expiry stays inside the buffer if and only if n is at most 51 |
| `MsrpReceive.ReadSubs` | daemons/mrpd/msrp.c:1093-1171 | the first pass over a listener vector collects its sub-states |
| `MsrpReceive.RecvGroup` | daemons/mrpd/msrp.c:1211-1290 | the events of one byte for consecutive values |
| `MsrpReceive.RecvEvents` | daemons/mrpd/msrp.c:1178-1290 | the events of a vector; a byte whose first event is out of range is passed over whole |
| `MsrpReceive.RecvVectors` | daemons/mrpd/msrp.c:847-1003 | the vectors of a message up to the end mark |
| `MsrpReceive.RecvMessages` | daemons/mrpd/msrp.c:799-1867 | the messages of a frame, those of unbelievable length included |
| `MsrpReceive.RecvMsg` | daemons/mrpd/msrp.c:717-1881 | the loops raise, for every byte sequence, exactly the events of the decoder in its order |
| `MsrpDaemon.Database.Lookup` | daemons/mrpd/msrp.c:133-162 | finds the first entry of the key, or none |
| `MsrpDaemon.Database.Merge` | daemons/mrpd/msrp.c:276-369 | msrp_merge in place changes the one entry to the merged one |
| `MsrpDaemon.Database.MergeTalker` | daemons/mrpd/msrp.c:298-319 | the talker branch: failure information, type, and the forced notify |
| `MsrpDaemon.Database.Add` | daemons/mrpd/msrp.c:164-274 | the walk to the first run of the entry's type and to its place there, or to the tail, is the type-grouped insertion |
| `MsrpDaemon.Database.LookupAndMerge` | daemons/mrpd/msrp.c:538-547 | afterwards the one entry of the key stands at the index returned, merged or fresh in its place, and no two entries share a key |
| `MsrpDaemon.Database.HandleAt` | daemons/mrpd/msrp.c:548-591 | both machines on one entry, local requests remapped for the registrar: the leave timer, the entry moved or reclaimed, and the one notification due |
| `MsrpDaemon.Database.OnAttr` | daemons/mrpd/msrp.c:499-591 | does what the station's step says for attribute events, and keeps one entry a key |
| `MsrpDaemon.Database.MoveAll` | daemons/mrpd/msrp.c:391-446 | both machines of every entry, or of one type, and the leave timer |
| `MsrpDaemon.Database.MoveApplicants` | daemons/mrpd/msrp.c:447-462 | the applicants of every entry, and whether one wants another opportunity |
| `MsrpDaemon.Database.OnLeaveAllExpiry` | daemons/mrpd/msrp.c:391-421 | does what the station's step says: state, frame, notifications |
| `MsrpDaemon.Database.OnLeaveAllHeard` | daemons/mrpd/msrp.c:422-446 | likewise for a LeaveAll received for one type |
| `MsrpDaemon.Database.OnTxOpportunity` | daemons/mrpd/msrp.c:447-478 | likewise for a transmit opportunity |
| `MsrpDaemon.Database.ExpireAll` | daemons/mrpd/msrp.c:479-493 | the walk of the leave timer keeps, removes and notes exactly what the sweep and the reclaim test say |
| `MsrpDaemon.Database.OnLeaveExpiry` | daemons/mrpd/msrp.c:479-493 | likewise for the leave timer, whose walk expires and reclaims at once |
| `MsrpDaemon.Database.OnReclaim` | daemons/mrpd/msrp.c:3879-3921 | likewise for garbage collection |
| `MsrpDaemon.Database.Event` | daemons/mrpd/msrp.c:374-614 | msrp_event refines the station: for every event the new state, the frame sent and the notifications are those of its step, and memory behind the frame buffer is written if and only if TxInside fails of what the event sends |
| `MsrpDaemon.Database.Recv` | daemons/mrpd/msrp.c:717-1881 | a received frame does to the database what Receive does to the station: the state, and the notifications of its events in order; it sends nothing and writes to no frame buffer |
| `BoundedQueue.StepKeeps` | daemons/mrpd/que.c:69-92 | every step of every thread keeps the queue's invariant |
| `BoundedQueue.RunKeeps` | daemons/mrpd/que.c:69-92 | so it holds under every interleaving |
| `BoundedQueue.FirstInFirstOut` | daemons/mrpd/que.c:40-92 | under all interleavings of any number of threads the popped items are a prefix of the pushed ones, no unread slot is overwritten, neither semaphore count exceeds the size |
| `BoundedQueue.NoReleaseIsLost` | daemons/mrpd/que.c:53-55 | no release meets a semaphore at its maximum |
| `BoundedQueue.NeverStuck` | daemons/mrpd/que.c:69-92 | while a thread is inside an operation past its wait, some thread can go on |
| `BoundedQueue.QuiescentCounts` | daemons/mrpd/que.c:69-92 | with no operation in progress the counts are the unread items and the free slots |
| `Eui64Set.NetworkOrder` | daemons/common/eui64set.c:36-62 | reading and writing in network order are inverse, both ways |
| `BigEndian.WrittenRead` | daemons/common/eui64set.c:36-62 | bytes are what their number spells, which is less than the power of 256 for their length |
| `Eui64Set.SortSorts` | daemons/common/eui64set.c:139-144 | there is a sorted rearrangement for every array |
| `Eui64Set.RemovesOneKey` | daemons/common/eui64set.c:170-192 | however ties are sorted, removal drops exactly one occurrence of the key, all-ones keys present or not |
| `Eui64Set.WrongEntryGoes` | daemons/common/eui64set.c:170-192 | an arrangement of ties in which the entry of another all-ones key is dropped instead |
| `Eui64Set.RemovalIsExact` | daemons/common/eui64set.c:170-192 | the entry found is the one removed, however ties are sorted, if and only if no other all-ones entry carries something else |
| `Eui64Set.Set.Clear` | daemons/common/eui64set.c:107-110 | empties the set |
| `Eui64Set.Set.IsFull` | daemons/common/eui64set.c:121-124 | full exactly at capacity |
| `Eui64Set.Set.Insert` | daemons/common/eui64set.c:126-137 | appends unless full |
| `Eui64Set.Set.SortStorage` | daemons/common/eui64set.c:139-144 | rearranges into order |
| `Eui64Set.Set.InsertAndSort` | daemons/common/eui64set.c:146-155 | a sorted array gains the entry, unless full, and stays sorted |
| `Eui64Set.Set.Find` | daemons/common/eui64set.c:157-168 | binary search finds an entry of the key if and only if there is one |
| `Eui64Set.Set.RemoveAt` | daemons/common/eui64set.c:181-188 | overwrites the key, sorts and drops the last entry |
| `Eui64Set.Set.RemoveAndSort` | daemons/common/eui64set.c:170-192 | removes one occurrence if and only if the key is there, and stays sorted |
| `Checksum.FoldKeeps` | examples/simple_talker/simple_talker.c:183-192 | folding keeps the one's complement value |
| `Checksum.Flat` | examples/simple_talker/simple_talker.c:178-195 | inet_checksum is the Internet checksum of section 1 of RFC 1071, with no 32-bit overflow |
| `Checksum.ScatterGather` | examples/simple_talker/simple_talker.c:206-247 | inet_checksum_sg is that of the bytes as its residual rule strings them together, with no 32-bit overflow |
| `Checksum.SpreadExactly` | examples/simple_talker/simple_talker.c:206-247 | and these are the concatenation if and only if no empty buffer meets a residual byte |
| `Checksum.SameChecksum` | examples/simple_talker/simple_talker.c:206-247 | so over non-empty buffers both functions agree |
| `Checksum.Misaligned` | examples/simple_talker/simple_talker.c:206-247 | for all lengths with an empty buffer at a residual byte and something behind it there are contents with another checksum |
| `Checksum.AgreeExactly` | examples/simple_talker/simple_talker.c:206-247 | for all lengths of the buffers: both functions agree for all contents if and only if every empty buffer that meets a residual byte has only empty buffers behind it |
| `Checksum.StoredVerifies` | examples/simple_talker/simple_talker.c:178-195 | storing the checksum in a zeroed field at an even offset makes the recomputed one zero |
| `NvmChecksum.Add` | kmod/igb/e1000_82575.c:2577-2584 | the words of a region summed modulo 2^16, or the read error |
| `NvmChecksum.ValidateRegion` | kmod/igb/e1000_82575.c:2569-2594 | succeeds if and only if the region sums to 0xBABA |
| `NvmChecksum.UpdateRegion` | kmod/igb/e1000_82575.c:2606-2630 | makes it sum to 0xBABA and writes nothing but the checksum word |
| `NvmChecksum.RegionsApart` | kmod/igb/e1000_defines.h:1063 | the four regions do not overlap |
| `NvmChecksum.UpdateRegions` | kmod/igb/e1000_82575.c:2753-2770 | the i350 update makes all four regions valid and writes nothing but their checksum words |
| `NvmChecksum.ValidateRegions` | kmod/igb/e1000_82575.c:2725-2743 | the i350 validation succeeds if and only if all regions are valid |
| `NvmChecksum.Update82580` | kmod/igb/e1000_82575.c:2681-2715 | the 82580 update makes all four valid and leaves the compatibility bit set |
| `NvmChecksum.Validate82580` | kmod/igb/e1000_82575.c:2640-2671 | the 82580 validation checks one region or four, as the compatibility bit says |
| `NvmChecksum.UpdateThenValidate` | kmod/igb/e1000_82575.c:2640-2770 | after a successful update, of either kind and on any prior content, the matching validation succeeds |

## Left out

- The databases of `MvrpDaemon` and `MsrpDaemon` hold the attribute list as a sequence. The nodes and their links are proved in `AttribList`, `MvrpList`, `MvrpNodes`, `GroupedList` and `MmrpList`, for MVRP over any sequence of the operations an event makes; which sequence an event makes is not stated.
- MvrpEmit.SendPdu: the flag for an empty LeaveAll and the LeaveAll flag are required to agree, because the only caller raises and clears them together.
- MsrpEmit.EmitMessages: the same, for MSRP.
- MsrpEmit.SendPdu: what a write behind the frame buffer does to the heap is undefined in the source; here nothing else lives there, and the emitters go on.
- MsrpDaemon.Database.Recv: the events of a frame are collected and then dispatched; the source dispatches each as it is found.
- MsrpDaemon.Database.Event: works on what outlasts an event; the flags that live only inside one (tx, sndmsg, encode, notify) are local to its sweeps. `MvrpDaemon` keeps them in the attributes.
- MsrpLink.SettledMeansRegistered: is about QA only; AN is false in general (`TypeChangeBreaksAnnounced`) and has its exact condition in `SafeIffNeverMissed`.
- Loss and reordering of frames are not modelled. Runs that show why own LeaveAll in VP and local Leave in VN are excluded on a link with delay are given for MVRP only (`DelayedRuns`).
- Pruning of uninteresting stream identifiers in MSRP (off in this model), and the sortedness of the MSRP list, which merging talkers of different types does not keep.
- MMRP PDUs: the emitter and the receiver of service vectors disagree on where events start, so there is no round trip to prove.
- Sockets, the select loop, process start-up, Windows threads and packet capture: an event is simply delivered.
- Command parsing, dumping of tables and the text of notifications; a notification is a record of what it is about and its kind.
- Allocation failure, failing timer system calls, logging, the address of the last registrar, and the periodic timer's own state machine.
- A pop that does not wait for data, and deleting a queue.
- Memory behind the `p` field of a set entry, which removal frees.
- The library's qsort and bsearch: any sorted rearrangement, and any matching index, is allowed for.
- The rest of the igb driver, the example talkers and listeners, jack, gPTP and the 1722 field setters.
