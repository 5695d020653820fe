# Verified models of the PCIe DMA engine's data movers

The repository moves data between a host and an FPGA over PCIe: AXI and AXI-Stream engines, segmented TLP
buffers, multiplexers and bridges in Verilog, and a Linux driver that hands out scatter-gather transfers.
Every one of these pieces is meant to be invisible from end to end. The models say what that means and prove it.

Each clocked module appears three times:

- as a register record and a `Step` function, one call per clock, with the same branches and edge cases as the source;
- as a class whose methods assign the registers the way the source does, each method proved to be exactly one `Step`;
- as histories of what went in and what came out, with lemmas that every `Step` keeps an invariant, and main
  theorems over every run from reset, for any timing of the other side.

Widths, depths, segment counts and port counts are parameters unless a line under "Left out" says otherwise.

| modules | what they model |
|---|---|
| `BurstPlanner`, `AxiDma`, `AxiBus`, `OutputFifo`, `AxiDmaProgress` | burst splitting, the output stage and the progress measure the engines share |
| `AxiDmaRead`, `AxiDmaReadData`, `AxiDmaReadProof`, `AxiDmaReadRun`, `AxiDmaReadProgress`, `AxiDmaReadEngine` | `axi_dma_rd`, aligned and unaligned |
| `AxiDmaWrite`, `AxiDmaWriteProof`, `AxiDmaWriteStatus`, `AxiDmaWriteRun`, `AxiDmaWriteProgress`, `AxiDmaWriteEngine` | `axi_dma_wr`, aligned |
| `AxiRam`, `AxiLoad`, `AxiStore`, `AxiStoreLoad` | `axi_ram`, each engine connected to it, and store followed by load |
| `SegmentQueue`, `SegmentBanks`, `SegmentFifo` | `pcie_tlp_fifo_raw` and the queue it implements |
| `CcSerializer`, `CcSerializerProof`, `CcSerializerUnit`, `CcPath` | `pcie_us_if_cc`, 512-bit bus, two segments, and the segment FIFO in front of it |
| `GrayCode`, `GrayFifo`, `GrayFwft`, `SyncFifo` | `gen_native_fifo` |
| `TagReorder`, `TagReorderProof`, `TagReorderRun`, `TagReorderEngine` | `dma_if_pcie_axis_rd_v1` |
| `MemWrite`, `MemWriteProof`, `MemWriteRun`, `MemWriteUnit` | `dma_if_pcie_axis_wr_v1` |
| `TlpMux`, `TlpMuxProof`, `TlpMuxFrames`, `TlpMuxFair`, `TlpMuxRun`, `TlpMuxMixing`, `TlpMuxGaps`, `TlpMuxUnit` | `pcie_tlp_mux` |
| `AxilRequest`, `AxilRequestProof`, `AxilResponse`, `AxilBridge`, `AxilBridgeUnit` | `pcie_axil_master` |
| `PriorityEncoder`, `Arbiter`, `MsiShim` | `priority_encoder`, `arbiter`, `pcie_us_msi` |
| `SgHandshake`, `SgHandshakeProof`, `SgHandshakeRetry`, `SgHandshakeDriver`, `ScatterList` | `sgdma.c`, the interrupt code of `fpdev_mod.c`, the status registers of `pcie_bar_register.v` |
| `Arith`, `Wrappers` | division facts; `Option` and `Result` |

`dafny verify dfyconfig.toml` checks everything.

## Findings

Where a property the design is for does not hold of the code, the code is modelled as it is, a run or an input
shows the failure, and the exact condition is proved.

| source | what the code does | input that shows it | what holds, exactly |
|---|---|---|---|
| rtl/pcie_tlp_mux.v:303-333 | With three or more segments and two or more ports the TLP multiplexer can tear a frame: a slot that finds no port ready still shifts out a lane of the last port searched, so a later slot of the same cycle reads that port's end marks out of place and another port's frame can follow an unfinished one. | `TlpMuxMixing.SomeRunMixes`: six clocks from reset | `TlpMuxMixing.MixingExact`: frames stay whole over every run if and only if there are at most two segments or one port |
| rtl/pcie_tlp_mux.v:246-333 | With four or more segments a beat whose valid lanes have a gap can send a segment twice: slots left uncommitted by an idle search are included in a later commit of the same cycle. | `TlpMuxGaps.GapRepeats`: three clocks from reset | `TlpMuxGaps.AnyBeatsExact`: every port's order survives whatever is offered if and only if there are at most three segments; with more, `TlpMuxRun.PortOrder` holds when valid lanes come first |
| rtl/gen_native_fifo.v:98-118 | The first-word-fall-through flag is clocked by the write clock in asynchronous mode too, while the FIFO behind it pops on the read clock; a word can be popped that the consumer is never shown. | `GrayFwft.WordLost`: four edges from reset | `GrayFwft.WrapperExact`: the consumer's view is right at every moment if and only if no edge of one clock alone finds the flag about to change; with one clock for both sides it always is |
| fpga_driver/linux/fpdev_driver/sgdma.c:312-350 | The scatter list buffer holds 512 entries, but the check before the loop lets 512 * 4096 pages through and the loop writes an entry for every mapped one, past the end of the buffer. | `ScatterList.ListOverrun`: a page-aligned buffer of 513 pages, none of them merged | `ScatterList.CallFits`: every write lands inside, however pages are merged, if and only if the buffer has at most 512 pages |
| rtl/dma_if_pcie_axis_wr_v1.v:274-296 | With payload code 3 a full memory-write TLP carries length field 0, which means 1024 DWs instead of 256. | `MemWriteProof.LengthWrong`: code 3, a TLP of 1024 bytes | `MemWriteProof.LengthExact`: the field is right if and only if the code is at most 2 or the TLP is shorter than 1024 bytes |
| rtl/dma_if_pcie_axis_wr_v1.v:121-128 | The register whose low bits shape the byte enables of a memory write is never loaded, and the header's address drops its two low bits, so a job at an address that is not a multiple of four is written below where it belongs. | `MemWriteProof.WriteMisplaced`: address 1, length 4 | `MemWriteProof.WritesExact`: a TLP writes exactly its share of the host range if and only if the job's address is a multiple of four and its length field is right |
| rtl/dma_if_pcie_axis_wr_v1.v:433-460 | A start pulse in a running job resets the byte counter, so the done flag can stay down after the job is complete. | `MemWriteRun.RestartHidesDone`: four clocks from reset | `MemWriteRun.DoneCounts`: over every run the flag is up if and only if as many beats as the last job needs were accepted since start was last high |
| rtl/dma_if_pcie_axis_wr_v1.v:168-197 | `s_axis_tlp_tready` is still high in the clock after a job's last beat; a beat offered then is accepted and lost. | `MemWriteRun.LateOfferHappens`: four clocks from reset | `MemWriteRun.DroppedExactly`: nothing is lost if and only if no beat is offered while ready is up and no job runs |
| rtl/pcie_axil_master.v:456-490 | A read of more than 32 DWs that starts in the last DW of a 128-byte block gets a first completion of one DW without its end marker. | `AxilBridge.BadReadTaken`: 33 DWs from DW address 31, in the second clock after reset | `AxilBridge.BridgeCorrect`: accesses and entries are those asked for if and only if no such read was taken |
| rtl/pcie_axil_master.v:548-573 | The test for message requests binds as `type & (5'b11000 == 5'b10000)` and never holds, so messages, which the comment beside it calls posted, are answered with a completion. | fmt 1 with type 16 to 23 | `AxilRequestProof.RefusedExactly`: a completion of its own is sent if and only if the request is neither memory read, memory write nor stray completion |
| rtl/pcie_us_msi.v:118-137 | A rising edge of an interrupt vector in the cycle that vector's own message is sent is lost. | `MsiShim.EdgeLost`: one vector, five clocks from reset | `MsiShim.EdgeAnswered`: an edge is answered or pending if and only if it falls in no such cycle |
| fpga_driver/linux/fpdev_driver/sgdma.c:503-518 | A transfer that gives up on a signal or timeout clears only its flag. The device goes on, and the next call on that channel meets what is left: two list starts, a done mark before the new start, or success before its own transfer. | `SgHandshakeRetry.RetryBreaks`: six moves from a clean start | `SgHandshakeRetry.OrderExact`: the order holds if and only if the channel is settled when the call starts; by `RetryIsNeverSafe` it never is after giving up |
| rtl/dma_if_pcie_axis_rd_v1.v:304-395 | For a host address that is not a multiple of four the byte enables of a read request follow the address, but its DW count follows the length alone, so the last bytes can fall outside the request. | `TagReorderRun.ReadInexact`: address 1, length 512 | `TagReorderRun.ReadIsExact`: a request asks for exactly its share if and only if the misalignment plus the bytes in the share's last DW fit one DW |

## Model

| member | source | states |
|---|---|---|
| `BurstPlanner.BurstIsLegal` | rtl/axi_dma_rd.v:362-391 | For every address, remaining length and parameter set, the byte count chosen in START makes progress, stays inside one 4 KB page and the beat limit (section A3.4.1 of the AMBA AXI and ACE Protocol Specification, ARM IHI 0022), and a burst that is not the last ends on a word boundary. |
| `BurstPlanner.PlanTiles` | rtl/axi_dma_wr.v:462-491 | The bursts of a descriptor are legal and consecutive, start at its address and end at address plus length; all but the first start on a word boundary. |
| `BurstPlanner.PlanCovers` | rtl/axi_dma_rd.v:362-391 | Every byte of the descriptor lies in some planned burst. |
| `BurstPlanner.PlanDisjoint` | rtl/axi_dma_rd.v:362-391 | No two bursts share a byte, a later burst lies above an earlier one, and none reaches outside the descriptor. |
| `BurstPlanner.PlanWordsConsecutive` | rtl/axi_dma_rd.v:344-397 | The two read state machines agree: the beats of all bursts are exactly the consecutive words, and as many, as the stream side's precomputed input count says, for every offset and length. |
| `AxiDma.BurstLenExact` | rtl/axi_dma_rd.v:382-388 | arlen + 1 is the number of words the burst touches, so eight bits always suffice. |
| `OutputFifo.StepKeepsOrder` | rtl/axi_dma_rd.v:644-685 | While a push finds room the FIFO and its output register together are an unbounded queue: what was delivered, then what is held, grows by exactly the pushed item. |
| `OutputFifo.FullAndEmpty` | rtl/axi_dma_rd.v:624-629 | With one extra pointer bit, the pointers differ in that bit alone exactly when the ring is full, and are equal exactly when it is empty. |
| `OutputFifo.OutFifo.Clock` | rtl/axi_dma_rd.v:654-685 | One clock of the array, the pointers, the late half-full flag and the output register is one step of the queue model. |
| `AxiDmaReadData.CmdMeaning` | rtl/axi_dma_rd.v:325-351 | The command handed to the stream side holds the descriptor's input and output beat counts less one, its shift, its bubble flag, its tail length and its tag. |
| `AxiDmaReadData.BeatRelation` | rtl/axi_dma_rd.v:344-349 | Input and output beat counts differ by at most one, not at all without a skew; if they agree in spite of a skew, the last beat's bytes already sit in the saved word. |
| `AxiDmaReadData.ShiftedIsGood` | rtl/axi_dma_rd.v:267 | The realignment shifter puts byte k of the request on the right kept lane of the right beat, from the saved word and the new one. |
| `AxiDmaReadProof.StreamReads` | rtl/axi_dma_rd.v:478-546 | One clock of the stream machine in READ keeps its invariant; when it reports, the descriptor has been served exactly: right bytes on every beat, all its words used, one status with the last failing response. |
| `AxiDmaReadRun.FollowsPlan` | rtl/axi_dma_rd.v:359-397 | Each visit to START puts the head of the descriptor's plan on the AR channel and leaves the rest of the plan. |
| `AxiDmaReadRun.BurstIssued` | rtl/axi_dma_rd.v:382-391 | Issuing a burst moves exactly its rows from the rows still to be requested to the rows in flight, wrapping with the address register. |
| `AxiDmaReadRun.RoomKept` | rtl/axi_dma_rd.v:478-541 | The output FIFO is never full on a write, although half-full and ready are both registered late and the last realigned beat is not gated. |
| `AxiDmaReadRun.RightWord` | rtl/axi_dma_rd.v:483-490 | A word taken from R is always the next word of the descriptor being streamed. |
| `AxiDmaReadRun.EngineKept` | rtl/axi_dma_rd.v:296-546 | One clock of the whole engine keeps the invariant that ties both state machines, the words in flight, the output FIFO and the history, for any memory timing. |
| `AxiDmaReadRun.ReadEngineCorrect` | rtl/axi_dma_rd.v:296-546 | Over every run from reset, aligned or not: descriptors are served in order, at most two outstanding, each as exactly the bytes at its address with one tlast, its tag and its status; what was delivered is a prefix of those beats. |
| `AxiDmaReadRun.ReadEngineDrains` | rtl/axi_dma_rd.v:447-546 | At rest every accepted descriptor has been served, every beat delivered and no word is in flight. |
| `AxiDmaReadRun.NothingDropped` | rtl/axi_dma_rd.v:472-541 | In every reachable state ready is up only in READ with input still due, at least twelve slots are spare, and a pushed beat is really stored. |
| `AxiDmaReadProgress.BusyBounded` | rtl/axi_dma_rd.v:296-546 | Over every run from reset, the clocks that find the engine short of rest although AR, R and the output stream answer are no more than the accepted descriptors account for. |
| `AxiDmaReadProgress.ReadEngineFinishes` | rtl/axi_dma_rd.v:296-546 | Whatever happened before, once no more descriptors come and that many clocks are answered, with any delays in between, every accepted descriptor is served and all its beats are delivered. |
| `AxiDmaReadEngine.ReadEngine.Clock` | rtl/axi_dma_rd.v:549-622 | One clock of the engine as registers updated in place is one step of the proved engine model. |
| `AxiDmaWriteProof.IssuesPlan` | rtl/axi_dma_wr.v:460-522 | What a START that issues puts on AW is the next burst of the plan, awlen + 1 its beat count within the limit. |
| `AxiDmaWriteProof.TransferMath` | rtl/axi_dma_wr.v:524-556 | In WRITE the byte count, the last-beat flag and the last offset always say exactly how far the next beat is from the ends of the burst and of the descriptor. |
| `AxiDmaWriteProof.Transferred` | rtl/axi_dma_wr.v:536-697 | A frame beat consumed and sent, cut at the descriptor's end, extends the strobed bytes by exactly the bytes the frame brought. |
| `AxiDmaWriteProof.FrameEnds` | rtl/axi_dma_wr.v:562-642 | An early tlast finishes the job in a last beat, or goes to padding with the job's invariant kept. |
| `AxiDmaWriteProof.DescriptorEnds` | rtl/axi_dma_wr.v:662-691 | A descriptor that ends before its frame goes to dropping the rest, with nothing more strobed. |
| `AxiDmaWriteProof.FinishKept` | rtl/axi_dma_wr.v:698-728 | Padding strobes nothing and ends the job complete: every burst with awlen + 1 beats and wlast on the last only. |
| `AxiDmaWriteProof.JobKept` | rtl/axi_dma_wr.v:429-750 | One clock of the five-state machine keeps the job's invariant, and a job that returns to IDLE is good: its strobed bytes are the first min(length, frame length) bytes at consecutive addresses, no other byte, and its last status entry says that number. |
| `AxiDmaWriteStatus.StatusKept` | rtl/axi_dma_wr.v:752-781 | The k-th write response pops the k-th burst's entry, the status FIFO never holds as many as 32 when it is pushed although it has no full check, and the credit counter is exactly the bursts issued and unanswered. |
| `AxiDmaWriteRun.RoomKept` | rtl/axi_dma_wr.v:903-935 | The output FIFO is never full on a write although its half-full flag is late on both sides. |
| `AxiDmaWriteRun.EngineKept` | rtl/axi_dma_wr.v:360-781 | One clock keeps the invariant of the whole write engine, and a response never pops an empty status FIFO. |
| `AxiDmaWriteRun.WriteEngineCorrect` | rtl/axi_dma_wr.v:360-781 | Over every run from reset: every job but the one under way is good, and descriptors accepted, frame beats consumed, AW requests, W beats delivered or held, and status entries are exactly those of the jobs, in order. |
| `AxiDmaWriteRun.ReportsMatch` | rtl/axi_dma_wr.v:752-781 | The k-th status reported is the k-th job's: its length is the bytes strobed, its error the last failure among that job's own responses, one per burst. |
| `AxiDmaWriteProgress.BusyBounded` | rtl/axi_dma_wr.v:360-781 | Over every run from reset, the clocks that find the engine short of rest although stream, AW, W and B answer are at most sixteen per descriptor byte and one per frame beat. |
| `AxiDmaWriteProgress.WriteEngineFinishes` | rtl/axi_dma_wr.v:360-781 | Once no more descriptors come and that many clocks are answered, with any delays in between, every job is good, all its requests and beats are on the bus and its status is reported. |
| `AxiDmaWriteEngine.WriteEngine.NextTransfer` | rtl/axi_dma_wr.v:524-697 | The WRITE branch, assigning next-state registers as the source does, computes the model's transfer step. |
| `AxiDmaWriteEngine.StatusUnit.Clock` | rtl/axi_dma_wr.v:752-781 | One clock of the status memory, its pointers and the credit counter is one step of the status model. |
| `AxiDmaWriteEngine.WriteEngine.Clock` | rtl/axi_dma_wr.v:784-857 | One clock of the engine as registers updated in place is one step of the proved engine model. |
| `AxiRam.Ram.ClockWrite` | rtl/axi_ram.v:181-281 | One write-side clock changes the memory by exactly the strobed lanes of the beat taken, and the registers as the model's step says. |
| `AxiRam.Ram.Clock` | rtl/axi_ram.v:254-372 | One clock of both ports, with or without the output pipeline, is one step of the memory model. |
| `AxiLoad.LoadCorrect` | rtl/axi_ram.v:283-372 | The read engine connected to this RAM needs no assumption about its memory: over every run it serves descriptors with the bytes of the RAM. |
| `AxiStore.StoreKept` | rtl/axi_ram.v:181-281 | One clock of write engine and RAM together keeps: the memory is the initial one overwritten by the beats written so far, and the rows still to write are those requested. |
| `AxiStore.StoreCorrect` | rtl/axi_dma_wr.v:524-697 | Over every run that ends at rest the memory is the initial one overwritten by all jobs' beats, in order, at the rows of their AW requests. |
| `AxiStoreLoad.JobRows` | rtl/axi_dma_wr.v:462-516 | The AW requests of a job's bursts cover consecutive rows from the descriptor's first. |
| `AxiStoreLoad.JobStored` | rtl/axi_dma_wr.v:524-697 | A finished job puts the first min(length, frame length) bytes of its frame at the descriptor's address and leaves every other byte of the memory alone. |
| `AxiStoreLoad.StoredByte` | rtl/axi_ram.v:254-281 | Byte by byte, the memory after several jobs is the last job's frame inside what it stored and what the earlier jobs left elsewhere. |
| `AxiStoreLoad.ServedIsRange` | rtl/axi_dma_rd.v:478-546 | The kept bytes of a served read descriptor are exactly its range of the memory. |
| `AxiStoreLoad.StoreThenLoad` | rtl/axi_dma_wr.v:524-697 | A run of the write engine to rest, then a run of the read engine on the same RAM: any served descriptor inside what the last job stored streams exactly that part of the frame, at any offset and length. |
| `SegmentBanks.RoundedPointer` | rtl/pcie_tlp_fifo_raw.v:376-393 | The per-bank address registers, kept as (pointer + S - 1 - b) / S, always address the row of the next position in bank b. |
| `SegmentBanks.DistinctCells` | rtl/pcie_tlp_fifo_raw.v:264-317 | Positions closer than the capacity never share a cell of a bank. |
| `SegmentBanks.NextRow` | rtl/pcie_tlp_fifo_raw.v:632-678 | Advancing an address register is moving to the next row of the same bank. |
| `SegmentQueue.SegmentFraming` | rtl/pcie_tlp_fifo_raw.v:398-434 | A wide input segment splits into narrow ones whose used lanes keep data, header and sop on the first, eop on the last, nothing in between. |
| `SegmentQueue.QueueKept` | rtl/pcie_tlp_fifo_raw.v:436-511 | One clock keeps the queue's invariant: pointers in order, the commit pointer at the end of a TLP, occupancy below capacity despite the one-cycle-late full flag. |
| `SegmentQueue.FifoOrder` | rtl/pcie_tlp_fifo_raw.v:436-678 | Over every run segments leave in the order they were accepted, each exactly once; nothing of an unfinished TLP is read; fewer than the capacity are inside. |
| `SegmentQueue.WindowFills` | rtl/pcie_tlp_fifo_raw.v:632-678 | Nothing committed is withheld: after two idle clocks the output window shows as many committed segments as fit. |
| `SegmentFifo.Fifo.Clock` | rtl/pcie_tlp_fifo_raw.v:319-511 | One clock of the banks, pointers, address registers and the two-stage window is one step of the segment queue. |
| `CcSerializerProof.RouteEmits` | rtl/pcie_us_if_cc.v:299-377 | Routing one valid segment emits the next output segment of the packet it belongs to, including the split case, and leaves the flags and the shift register ready for the next. |
| `CcSerializerProof.SerializerKept` | rtl/pcie_us_if_cc.v:255-463 | One clock with any number of segments routed, and any back-pressure, keeps the invariant over packets, flags, shift register and output register. |
| `CcSerializerProof.SerializerCorrect` | rtl/pcie_us_if_cc.v:255-530 | Over every run: the segments read fall into packets in order, what was delivered or is held is the packets' output in order, and every finished packet is its three-DW descriptor, then its whole payload, framed exactly. |
| `CcSerializerProof.SegmentsNeeded` | rtl/pcie_us_if_cc.v:299-377 | A packed completion of n payload DWs takes exactly ceil((n + 3) / 8) output segments. |
| `CcPath.WindowFeeds` | rtl/pcie_us_if_cc.v:181-254 | In every reachable state the FIFO's output window shows the serializer what it relies on: the next committed segments, from the first. |
| `CcPath.PathCorrect` | rtl/pcie_us_if_cc.v:181-530 | FIFO and serializer together, over every run from reset with nothing assumed of the window: the segments let in are read in order, finished TLPs only; they fall into packets, and every finished one left as its descriptor and whole payload. |
| `CcSerializerUnit.SidebandExact` | rtl/pcie_us_if_cc.v:456-523 | The start and end fields of the sideband, read back, are exactly the boundaries in the beat, straddled or not, in order. |
| `CcSerializerUnit.BuildSideband` | rtl/pcie_us_if_cc.v:456-523 | The lane scan and the two case tables, as loops, compute the sideband of the model. |
| `CcSerializerUnit.DescriptorFields` | rtl/pcie_us_if_cc.v:386-405 | Every field of the completion header can be read back from its place in the three DWs. |
| `CcSerializerUnit.DescriptorInjective` | rtl/pcie_us_if_cc.v:386-405 | Two headers with the same descriptor are the same, and each DW fits 32 bits. |
| `CcSerializerUnit.Serializer.Clock` | rtl/pcie_us_if_cc.v:292-530 | One clock of the two segment loops over the registers is one step of the serializer model. |
| `GrayCode.GrayInjective` | rtl/gen_native_fifo.v:345-346 | Different pointers have different Gray codes, at every width. |
| `GrayCode.GrayOneBit` | rtl/gen_native_fifo.v:345-346 | Counting up, the wrap included, changes exactly one bit of the code. |
| `GrayCode.GrayHalfTurn` | rtl/gen_native_fifo.v:404-413 | The code with its top two bits inverted is the code of the pointer half a turn ahead. |
| `GrayFifo.SampleIsReal` | rtl/gen_native_fifo.v:359-376 | A code sampled while the pointer moves, each changing bit resolving either way, is the old code or the new one. |
| `GrayFifo.FullMeans` | rtl/gen_native_fifo.v:404-413 | In every reachable state full is up exactly when the words not yet seen read number 2^DEPTH - 1. |
| `GrayFifo.EmptyMeans` | rtl/gen_native_fifo.v:401-402 | In every reachable state empty is up exactly when every word seen written has been read. |
| `GrayFifo.InvKept` | rtl/gen_native_fifo.v:359-396 | Any tick of either clock, or both, keeps every synchronized pointer a value the source really held and in order, and a word read is the oldest unread. |
| `GrayFifo.AsyncFifoCorrect` | rtl/gen_native_fifo.v:308-440 | For every interleaving of the two clocks what is read is a prefix of what is written, and true occupancy never exceeds 2^DEPTH - 1. |
| `GrayFifo.AsyncFifo.Clock` | rtl/gen_native_fifo.v:359-396 | One edge of the write clock, the read clock or both on the registers is one tick of the model. |
| `GrayFwft.TickExact` | rtl/gen_native_fifo.v:98-118 | From a consistent state an edge leads to a consistent one if and only if both clocks tick or the flag would not change. |
| `GrayFwft.WrapperExact` | rtl/gen_native_fifo.v:98-118 | For every interleaving from reset: the words taken and the one shown are at all times the words read, if and only if no edge of one clock alone finds the flag about to change. |
| `GrayFwft.HarmlessInOrder` | rtl/gen_native_fifo.v:98-120 | Then, and always with one clock for both sides, what the consumer takes is a prefix of what was written. |
| `GrayFwft.WordLost` | rtl/gen_native_fifo.v:98-118 | For every depth, four edges from reset after which a written word has been read and never shown. |
| `GrayFwft.FwftFifo.Clock` | rtl/gen_native_fifo.v:98-120 | One edge of either clock on the flag and the FIFO behind it is one tick of the model. |
| `SyncFifo.PlainQueue` | rtl/gen_native_fifo.v:98-120 | One clock of the sync FIFO behind the prefetch wrapper is one step of a plain queue: prefetching is invisible. |
| `SyncFifo.FifoCorrect` | rtl/gen_native_fifo.v:193-300 | From reset, over every run, the words taken and then those held are the words written while not full, in order, at most 2^DEPTH + 1 of them held. |
| `TagReorderProof.BeatsTile` | rtl/dma_if_pcie_axis_rd_v1.v:447-488 | The beat counts written in the tag table, request by request, tile the beats of the job. |
| `TagReorderProof.LengthsAgree` | rtl/dma_if_pcie_axis_rd_v1.v:304-395 | The DW length in each header asks for exactly the beats in the tag table and covers the job's bytes. |
| `TagReorderProof.StepKept` | rtl/dma_if_pcie_axis_rd_v1.v:398-701 | Allocating, receiving a completion beat, draining or releasing keeps the invariant tying the table, the queues, the host's answers and the stream. |
| `TagReorderRun.StreamInOrder` | rtl/dma_if_pcie_axis_rd_v1.v:687-701 | For every interleaving of completions across tags the stream is the start of the requested host range in address order, with tlast on the last beat alone, and the whole range once nothing is left. |
| `TagReorderRun.TagsDistinct` | rtl/dma_if_pcie_axis_rd_v1.v:436-443 | Requests in flight carry different tags. |
| `TagReorderRun.TagReused` | README.md:141-143 | A tag is handed out again only when every beat of every earlier request under it has left and its queue and table entry are clear. |
| `TagReorderRun.QueueBounded` | rtl/dma_if_pcie_axis_rd_v1.v:571-584 | No tag ever queues more beats than its table entry says, and that is at most eight. |
| `TagReorderRun.InterruptExact` | rtl/dma_if_pcie_axis_rd_v1.v:571-612 | The interrupt is raised exactly when every request is out and answered in full. |
| `TagReorderRun.NeverStuck` | rtl/dma_if_pcie_axis_rd_v1.v:665-705 | Until the job is finished the device can move, or the host owes it a beat of the oldest request. |
| `TagReorderRun.JobEnds` | rtl/dma_if_pcie_axis_rd_v1.v:665-705 | No run makes more than two moves per request and two per beat; one that makes them all has streamed the whole range and given every tag back. |
| `TagReorderRun.ReadIsExact` | rtl/dma_if_pcie_axis_rd_v1.v:304-395 | Request k asks for exactly its share of the bytes if and only if the misalignment of the address plus the bytes in the share's last DW fit one DW. |
| `TagReorderRun.ReadInexact` | rtl/dma_if_pcie_axis_rd_v1.v:304-395 | A full request from address 1 does not ask for exactly its share. |
| `TagReorderRun.ReadStaysInPage` | rtl/dma_if_pcie_axis_rd_v1.v:304-395 | From a 512-byte boundary no request crosses a 4 KB boundary (section 2.2.7 of the PCI Express Base Specification). |
| `TagReorderEngine.ReadRequester.Allocate` | rtl/dma_if_pcie_axis_rd_v1.v:398-445 | Allocating on the registers and the tag table is the model's step and emits the model's request. |
| `TagReorderEngine.ReadRequester.Receive` | rtl/dma_if_pcie_axis_rd_v1.v:571-612 | Receiving a completion beat into its tag's queue is the model's step. |
| `SgHandshakeProof.PulseLands` | rtl/pcie_bar_register.v:1160-1194 | In every state reachable without a retry a done code finds its status register clear, lands in it, and leaves an interrupt pending. |
| `SgHandshakeProof.NoLostCompletion` | fpga_driver/linux/fpdev_driver/fpdev_mod.c:500-579 | A completion the waiting process has not seen is in its flag, or an interrupt for it is still to be serviced, although the handler may store stale words. |
| `SgHandshakeProof.NoEndlessSleep` | fpga_driver/linux/fpdev_driver/sgdma.c:500-551 | With every interrupt serviced and every write delivered a process sleeps only while the device is working for it. |
| `SgHandshakeProof.SuccessInOrder` | fpga_driver/linux/fpdev_driver/sgdma.c:491-551 | Over every run without a retry each channel's marks are list started, list done, DMA started, DMA done, success, for ever, so success is returned only after its own whole sequence. |
| `SgHandshakeRetry.OrderExact` | fpga_driver/linux/fpdev_driver/sgdma.c:500-551 | For every state: all marks after a call starts keep that order, whatever happens next, if and only if the channel is settled at that moment: no start write on its way, the device at rest, the status register clear or about to be. |
| `SgHandshakeRetry.RetryIsNeverSafe` | fpga_driver/linux/fpdev_driver/sgdma.c:503-518 | A channel whose call gave up is never settled, so some run after the next call starts always breaks the order. |
| `SgHandshakeRetry.RetryBreaks` | fpga_driver/linux/fpdev_driver/sgdma.c:503-518 | A run of six moves from a clean start in which two list starts reach the device one after the other. |
| `SgHandshakeDriver.SgChannel.Proceed` | fpga_driver/linux/fpdev_driver/sgdma.c:500-551 | One access of the wait loop on the shared words is the model's move, in either direction's order of clears. |
| `SgHandshakeDriver.InterruptHandler.Access` | fpga_driver/linux/fpdev_driver/fpdev_mod.c:500-579 | One access of the interrupt handler, loading, storing or waking, is the model's move. |
| `PriorityEncoder.EncodeIsScan` | rtl/priority_encoder.v:59-88 | For every width the log-depth tree finds what a linear scan from the high-priority end finds. |
| `Arbiter.StepKept` | rtl/arbiter.v:98-155 | The grant is one-hot exactly when valid, a new grant goes to a requester, with nobody asking there is none, and the mask is always the ports after some port. |
| `Arbiter.HeldUntilAcknowledged` | rtl/arbiter.v:103-110 | Blocking on acknowledge, a grant stays until its own acknowledge and no longer. |
| `Arbiter.Fair` | rtl/arbiter.v:112-140 | In round-robin mode a request held until it is granted is passed over at most PORTS - 1 times. |
| `Arbiter.GrantUnit.Clock` | rtl/arbiter.v:142-155 | One clock of the registers is one step of the model. |
| `MsiShim.TickKept` | rtl/pcie_us_msi.v:115-139 | Every cycle keeps: a granted vector is pending, and while its message is out the grant does not move. |
| `MsiShim.ClearedByOwnSent` | rtl/pcie_us_msi.v:129-137 | A vector stops being pending only in the cycle its own message is sent. |
| `MsiShim.OneOutstanding` | rtl/pcie_us_msi.v:124-139 | Over every run launches lead settlements by one exactly while active: at most one message is outstanding. |
| `MsiShim.EdgesAccounted` | rtl/pcie_us_msi.v:118-137 | Over every run from reset each rising edge of a vector is accounted for once: a message sent for it, still pending, merged with a pending one, or lost in its own sent cycle. |
| `MsiShim.EdgeAnswered` | rtl/pcie_us_msi.v:118-137 | After any run from reset, an edge with no other after it is answered or still pending if and only if it did not fall in the cycle its own vector's message was sent. |
| `MsiShim.EdgeLost` | rtl/pcie_us_msi.v:129-137 | A run of five clocks from reset with two edges, one message and nothing pending. |
| `MsiShim.VectorPassedOver` | rtl/pcie_us_msi.v:98-139 | With the arbiter as connected, after any run from reset: a pending vector that stays enabled sees at most count - 1 messages of other vectors before its grant. |
| `MsiShim.MessageUnit.Clock` | rtl/pcie_us_msi.v:115-157 | One clock of the registers and the arbiter is one step of the model. |
| `TlpMuxProof.PortKept` | rtl/pcie_tlp_mux.v:180-376 | One cycle of the slot-by-slot selection neither loses, repeats nor reorders a segment of any port, whatever is committed or abandoned. |
| `TlpMuxRun.StageKept` | rtl/pcie_tlp_mux.v:455-531 | The output stage of two registers neither drops nor reorders a beat offered while it is ready. |
| `TlpMuxRun.PortOrder` | rtl/pcie_tlp_mux.v:180-531 | Over every run, for any number of ports and, with up to three segments, any beats (with more, beats whose valid lanes come first), what left from a port, then what is still inside, is exactly what the port handed over. |
| `TlpMuxGaps.AnyBeatsExact` | rtl/pcie_tlp_mux.v:180-376 | Every port's order survives every run, whatever the ports offer, if and only if there are at most three segments. |
| `TlpMuxGaps.GapRepeats` | rtl/pcie_tlp_mux.v:246-333 | For every number of segments from four, three clocks from reset in which a port hands over two segments and the first leaves twice. |
| `TlpMuxFrames.CycleFrames` | rtl/pcie_tlp_mux.v:246-333 | What one cycle sends continues whole frames when there are at most two segments or every chosen lane is aligned. |
| `TlpMuxFair.PassedOverAtMost` | rtl/pcie_tlp_mux.v:246-300 | In round-robin mode at most PORTS - 1 frames of other ports begin while a port waits with a frame, however long the run. |
| `TlpMuxMixing.MixingExact` | rtl/pcie_tlp_mux.v:246-333 | Frames stay whole over every run from reset, whatever the ports offer, gaps between valid lanes included, if and only if there are at most two segments or one port. |
| `TlpMuxMixing.SomeRunMixes` | rtl/pcie_tlp_mux.v:246-333 | For every number of segments from three and ports from two, a run of six clocks from reset in which a frame is torn. |
| `TlpMuxRun.FramesNeverMix` | rtl/pcie_tlp_mux.v:246-333 | Frames also stay whole with more segments when the beats offered are full or empty. |
| `TlpMuxUnit.Multiplexer.Clock` | rtl/pcie_tlp_mux.v:180-531 | One clock of the segment and port loops over the registers is one step of the model. |
| `AxilRequestProof.SingleSpan` | rtl/pcie_axil_master.v:379-409 | The byte count of a one-DW read is the span from its first to its last enabled byte, one if none is enabled. |
| `AxilRequestProof.CompletionExact` | rtl/pcie_axil_master.v:589-682 | A completion runs from its first DW to the next 128-byte boundary or the request's end, its header says so and gives the remaining byte count, no other completion starts inside it, and the next starts right after (section 2.3.1.1 of the PCI Express Base Specification). |
| `AxilRequestProof.LengthsAddUp` | rtl/pcie_axil_master.v:589-682 | The lengths of a request's completions add up to its length. |
| `AxilRequestProof.FirstCompletionDelimited` | rtl/pcie_axil_master.v:445-505 | The first completion's header and end marker agree if and only if the read has at most 32 DWs or does not start in the last DW of a 128-byte block. |
| `AxilRequestProof.RefusedExactly` | rtl/pcie_axil_master.v:546-586 | A request is refused with a completion of its own if and only if it is neither a memory read, nor a memory write, nor a stray completion; so every message request, though posted, is. |
| `AxilRequestProof.StepKept` | rtl/pcie_axil_master.v:427-779 | One clock of the request machine keeps: what was issued is all earlier requests' accesses and the first ones of the current request. |
| `AxilResponse.StepTokens` | rtl/pcie_axil_master.v:839-938 | One clock of the response machine: what leaves, then what its registers hold, is what they held and what the retired entry adds. |
| `AxilBridge.BridgeCorrect` | rtl/pcie_axil_master.v:318-938 | Over every run from reset: each address issued is taken once and in order, the response queue never overflows and is first in first out; the accesses and entries are those the requests ask for if and only if no read of more than 32 DWs started in the last DW of a block; then completions follow in request order, posted writes making none. |
| `AxilBridge.BridgeDrains` | rtl/pcie_axil_master.v:839-938 | At rest the completions sent are exactly those of all requests taken. |
| `AxilBridge.BadReadTaken` | rtl/pcie_axil_master.v:445-505 | Such a read can be taken in the second clock after reset. |
| `AxilBridgeUnit.Bridge.Clock` | rtl/pcie_axil_master.v:941-1036 | One clock of the registers of both machines and the queue is one step of the model. |
| `MemWriteProof.LengthExact` | rtl/dma_if_pcie_axis_wr_v1.v:197-297 | The length field is the number of DWs of the TLP's bytes if and only if the payload code is at most 2 or the TLP has fewer than 1024 bytes. |
| `MemWriteProof.LengthsAddUp` | rtl/dma_if_pcie_axis_wr_v1.v:194-320 | Up to code 2 the TLPs' lengths add up to the DWs of the job. |
| `MemWriteProof.MarksBracket` | rtl/dma_if_pcie_axis_wr_v1.v:197-320 | sop and eop stand exactly where the TLP changes, and every beat carries the header of its own TLP. |
| `MemWriteProof.EnablesShare` | rtl/dma_if_pcie_axis_wr_v1.v:197-320 | Counted from the header's own address, the length and byte enables of TLP k enable exactly as many bytes as its share, unless its length field is wrong. |
| `MemWriteProof.WritesExact` | rtl/dma_if_pcie_axis_wr_v1.v:121-128 | The header of TLP k writes exactly its share of the job's host range if and only if the job's address is a multiple of four and its length field is right. |
| `MemWriteProof.WriteMisplaced` | rtl/dma_if_pcie_axis_wr_v1.v:121-128 | Four bytes for address 1 are written at addresses 0 to 3. |
| `MemWriteProof.LengthWrong` | rtl/dma_if_pcie_axis_wr_v1.v:274-296 | A TLP of 1024 bytes under code 3 carries length field 0 where 256 is due. |
| `MemWriteProof.TlpStaysInPage` | rtl/dma_if_pcie_axis_wr_v1.v:173-191 | From a base that is a multiple of the payload no TLP crosses a 4 KB boundary (section 2.2.7 of the PCI Express Base Specification). |
| `MemWriteRun.WritesCorrect` | rtl/dma_if_pcie_axis_wr_v1.v:143-432 | Over every run, whatever start and stream do, the beats delivered and still queued are job by job the TLPs of the jobs taken, and no job starts before the one before it is complete. |
| `MemWriteRun.DroppedExactly` | rtl/dma_if_pcie_axis_wr_v1.v:168-192 | Every stream beat accepted goes into a TLP if and only if none is offered while ready is up and no job is running. |
| `MemWriteRun.LateOfferHappens` | rtl/dma_if_pcie_axis_wr_v1.v:168-192 | A run of four clocks from reset in which one beat is accepted and lost. |
| `MemWriteRun.DoneExact` | rtl/dma_if_pcie_axis_wr_v1.v:433-460 | When starts come only to an idle segmenter, the done flag is up exactly when the last job has all its beats. |
| `MemWriteRun.DoneCounts` | rtl/dma_if_pcie_axis_wr_v1.v:433-460 | Over every run, start pulses in running jobs included: the done flag is up if and only if as many beats as the last job needs were accepted since start was last high. |
| `MemWriteRun.RestartHidesDone` | rtl/dma_if_pcie_axis_wr_v1.v:433-460 | A run of four clocks from reset after which the job is complete and the flag is down. |
| `MemWriteUnit.Segmenter.Clock` | rtl/dma_if_pcie_axis_wr_v1.v:328-432 | One clock of the registers and the output FIFO is one step of the model. |
| `ScatterList.PagesExact` | fpga_driver/linux/fpdev_driver/sgdma.c:76-122 | A page is among those pinned if and only if it holds a byte of the buffer. |
| `ScatterList.CutPages` | fpga_driver/linux/fpdev_driver/sgdma.c:55-285 | The page loop succeeds exactly for a non-empty page-aligned buffer within the page limit and fully pinned; the entries then tile it, each page once, only the last possibly short; otherwise the error is the first check that fails. |
| `ScatterList.ListMemory.WriteList` | fpga_driver/linux/fpdev_driver/sgdma.c:312-350 | The loop writes exactly the four words of each mapped entry, in order, and no other, whatever the size of the buffer. |
| `ScatterList.ListReadsBack` | fpga_driver/linux/fpdev_driver/sgdma.c:312-350 | The device reads back from the four words of each entry the mapped address, length and index. |
| `ScatterList.WritesFit` | fpga_driver/linux/fpdev_driver/sgdma.h:56-57 | All words written lie inside the list buffer if and only if at most 512 entries were mapped. |
| `ScatterList.CallFits` | fpga_driver/linux/fpdev_driver/sgdma.c:85-350 | For every buffer the page check accepts: the writes stay inside for every outcome of mapping if and only if the buffer has at most 512 pages. |
| `ScatterList.ListOverrun` | fpga_driver/linux/fpdev_driver/sgdma.c:312-350 | A page-aligned buffer of 513 pages is accepted, and with no page merged word 2048, the first past the buffer, is written. |

## Left out

Weaker than the source promises, on purpose:

- AxiDmaWriteRun.WriteEngineCorrect: only ENABLE_UNALIGNED = 0, the setting the wrapper instantiates (rtl/dma_if_pcie_axi_rd.v:209); the unaligned write datapath is not modelled, and with an aligned address the strobe offset mask is all ones and left out.
- AxiDmaReadRun.ReadEngineCorrect: descriptor length above zero, as the engine's own counters assume; a zero length underflows them. The id, dest and user side signals are not carried.
- TlpMuxRun.PortOrder: with four or more segments only for beats without gaps before a valid lane; without that it fails, see `TlpMuxGaps.AnyBeatsExact`.
- TlpMuxRun.FramesNeverMix: a sufficient condition on the beats offered; the exact condition on the configuration is `TlpMuxMixing.MixingExact`.
- SgHandshakeProof.NoLostCompletion: runs without a call after one that gave up; what happens then is in `SgHandshakeRetry`.
- TagReorderRun.StreamInOrder: one descriptor drained before the next starts, beats of 64 bytes, 512-byte reads (code 2), full aligned completion beats, a request channel that takes a request whenever it is valid; steps are protocol steps (allocate, receive, drain, release), not clocks.
- MemWriteRun.DoneExact: only when starts come to an idle segmenter; every run is covered by `MemWriteRun.DoneCounts`.
- GrayFifo.AsyncFifoCorrect: the asynchronous FIFO behind the first-word-fall-through flag; what the flag in front of it does is `GrayFwft.WrapperExact`.

Not modelled:

- Masks and shifts by a bus width are written as division and remainder, for a strobe width that divides 4096.
- dma_if_pcie_axis_wr_v1 with payload codes above 3, for which the source computes neither TLP counts, marks nor lengths.
- pcie_tlp_fifo_raw with one output segment, its control-read side channel, the segment count output and the watermark.
- pcie_us_if_cc on buses other than 512 bits with two segments, and the discontinue and parity fields, which are constant zero.
- pcie_tlp_mux: the sequence-number side channel; the rest of a TLP travels as one opaque word per segment.
- pcie_axil_master: the header arrives parsed, the error status outputs are left out, and the response queue is a sequence bounded by its proof, not an array with pointers.
- pcie_us_msi with more than 32 vectors, and the vendor's fail handling beyond ending the message.
- The driver's block-mode channels, memory allocation, page pinning and DMA mapping, which appear as parameters; one interrupt vector; several pending interrupts count as one, as with message-signalled interrupts.
- pcie_us_if_rq, pcie_us_if_rc, pcie_us_if_cq, sgdma_if_pcie_axis, sgdma_if_pcie_axi and xpm_sync_fifo are not part of this model; where a core touches one, its behaviour is an arbitrary environment or a bounded queue.
- The register file decode of pcie_bar_register.v, field latching in pcie_cq_if.v and pcie_cc_if.v, the demultiplexers and pure wiring: they would only add easy members.
- Reset in the middle of a run, clock trees, vendor primitives, test benches and user tools.
