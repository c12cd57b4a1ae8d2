# A model of the streaming engine

These modules model the parts of go2rtc that turn one stream into another, and the parts that decide who is
connected to whom. They state what those parts keep over whole runs, in every interleaving of their steps, and for
all inputs.

## What is modelled

* **Bit strings.** `Bits` has the bit reader and writer as classes with the fields of the source, over an abstract
  position in a bit string. `Bytes` has fixed-width integers as subset types of `int`; wrap-around and truncation are
  written out wherever the source has them.
* **H.264 parameter sets.** `Sps` gives each section of the syntax as a function of the position where it starts. The
  decoder and the pixel format fixer are methods over the bit reader; the fixer clears a bit of an array. `SpsPrint`
  writes sets after the tables of ITU-T H.264.
* **NAL units and RTP.** `Nalu` splits and joins units in both framings. `H264Payloader` and `H265Payloader` follow the
  payloaders and contain receivers written from RFC 6184 and RFC 7798. `H265Rtp` is the H.265 depacketiser with loss,
  `H265RoundTrip` joins it with the packetiser, `H265Loss` loses packets on the way. `Aac` has AAC-hbr and ADTS,
  `AacConfig` the audio config.
* **ISO BMFF.** `Iso` has the writer with its stack of open boxes, `IsoReader` the decoder, `IsoFragment` the fragments,
  `IsoPrint` boxes written after ISO/IEC 14496-12, and `Mp4Muxer` the timeline of a fragmented file.
* **MPEG-TS.** `MpegTs` says what the demuxer reads from any 188 bytes, `MpegTsFormat` what the muxer writes,
  `MpegTsRoundTrip` puts them together; `MpegTsMuxer` and `MpegTsDemuxer` are the classes. `MpegTsTimes` and
  `MpegTsTables` have PES packets, transport packets and tables written after ISO/IEC 13818-1.
* **Connections.** `Node` and `Connection` are the graph of receivers and senders on the heap. `Lifecycle` is the
  protocol of a producer, one step for each critical section, and `Producer` the class that takes those steps.
  `Stream` is the protocol of a stream: one step for each mutex section and each access to the pending counter.
  `StreamLinks`, `StreamRuns`, `StreamCalm` and `StreamRaces` say which consumers are linked to which producers after
  a step, in every run, in calm runs and while a track is held; `StreamSweeps` is about a whole stopProducers,
  `StreamExamples` has runs in which consumers and producers part ways, `StreamMatching` says which producers the
  matching loops take, and `StreamMethods` has the methods, each a path of steps. `Sender` is the queue of a sender with its worker.
* **Log.** `LogRing` is the ring of log chunks.

A panic of the source is a precondition of a method, or a result of its own (`Panic`, `Fault`, `None`) where the
statement is about all inputs. Goroutines, timers and the network are steps whose results are arbitrary.

## Where the code differs from what one would expect

These are stated with the exact condition, or shown by a run that the code can take:

* Closing a root with three or more children leaves every second child attached, because the loop ranges over a slice
  that each child shifts (`Node.ClosingLeaves`).
* A reconnect keeps the children of all tracks only if every receiver with children is among those that the new
  connection moves, one for each media in the order of the lists (`Producer.Producer.Reconnect`, `Producer.Movers`). A
  consumer of another track stays in the list without a link (`StreamExamples.ReconnectCutsConsumer`).
* stopProducers reads pending before it takes the mutex. A consumer that comes in between can lose the producer that
  it is about to use, and AddConsumer still succeeds (`StreamRaces.TakenIsKept`, `StreamExamples.SweepCutsConsumer`).
* stopProducers reads the tracks of a producer without its mutex. In the middle of a reconnect it finds them empty and
  stops a producer that has consumers (`StreamExamples.GlimpseCutsConsumer`).
* A consumer that sends can keep a producer up after it left: closing one of its tracks leaves every second of three
  or more children, and a reconnect listens again to tracks of consumers that are gone
  (`StreamSweeps.LastConsumerLeaves`, `StreamExamples.GhostKeepsProducer`).
* AddConsumer counts a matching sendrecv media of a producer as a match but asks nobody for a track: the consumer is
  added, and its producer may be stopped (`StreamSweeps.BareIsUp`, `StreamExamples.BareIsNotServed`).
* AddConsumer keeps as many errors as there were producers when it began, and indexes them by the producers that there
  are later (`StreamExamples.ListGrows`, `StreamExamples.ErrorsRunOut`).
* The TS muxer does not count the step after a timestamp of zero (`MpegTsRoundTrip.ClockExact`). A payload of more than
  65527 bytes gets no length, and the demuxer hands it out one call later (`MpegTsRoundTrip.MuxThenDemux`).
* The TS demuxer takes a decode time of zero modulo 2^32 for none, and keeps 16 bits of the difference of the times
  (`MpegTsTimes.TimesOfVideo`). A transport packet that has only an adaptation field ends it with an error
  (`MpegTsTables.TransportReads`).
* The ISO reader knows one version of each header: time scales of version 1 and decode times of version 0 are not read
  (`IsoPrint.HeadersRead`, `IsoPrint.TimesRead`), nor are fragment headers with a data offset (`IsoPrint.TfhdReads`) or
  audio configurations at the end of their descriptor (`IsoPrint.AudioReads`).
* DecodeSPS reads the bytes of the NAL unit as they are. Emulation prevention bytes (clause 7.4.1 of ITU-T H.264) are
  read as part of the fields, so that what is printed in `SpsPrint` is the set without them.
* An ADTS header keeps types 1 to 4 and up to seven channels, and no rate outside the table (`Aac.HeaderTells`,
  `AacConfig.ThroughADTS`).
* An audio config loses type 31, types from 96 on, rates from 2^24 on and more than 15 channels
  (`AacConfig.EncodeThenDecode`).
* The H.265 depacketiser has no case for aggregation packets and holds back an access unit that ends in a short
  parameter set or SEI (`H265RoundTrip.RoundTrip`).
* The last fragment of a unit whose first fragment did not arrive makes the H.265 depacketiser write a size field where
  an earlier unit started. It panics exactly when that field is not wholly within the data and starts at most 4
  bytes after its end (`H265Loss.PanicsExactly`). Some streams with a loss do that (`H265Loss.StaleStartPanics`); what
  RTPPay sends does it only if at least 2^16 packets are lost at once (`H265Loss.ManyLostPanics`) or a unit has type
  49 (`H265Loss.OddTypePanics`, `H265Loss.LossesAreHarmless`).
* With a clock rate of zero the MP4 muxer's durations exceed it (`Mp4Muxer.DurationsOfRun`), and a jump of a timestamp
  moves the decode time against the timestamps for good (`Mp4Muxer.DriftOfPacket`).

## Model

| member | source | states |
|---|---|---|
| Bits.Reader.ReadByte | pkg/bits/reader.go:17-30 | the next eight bits of the bit string, at any alignment; past the end zero and EOF, and the position still advances |
| Bits.Reader.ReadBit | pkg/bits/reader.go:53-62 | the bit at the cursor, which moves by one; the fields keep describing one position of the bit string |
| Bits.Reader.ReadBits | pkg/bits/reader.go:64-90 | the next n bits as one number, through the counter that wraps from 0 to 255 |
| Bits.Reader.ReadUint16 | pkg/bits/reader.go:32-37 | aligned fast path and bitwise path give the same sixteen bits |
| Bits.Reader.ReadUint24 | pkg/bits/reader.go:39-44 | aligned fast path and bitwise path give the same twenty-four bits |
| Bits.Reader.ReadUint32 | pkg/bits/reader.go:46-51 | aligned fast path and bitwise path give the same thirty-two bits |
| Bits.Reader.ReadUEGolomb | pkg/bits/reader.go:118-126 | the number and the end position of the Exp-Golomb code at the cursor, including the give-up after 32 zeros and the end of data |
| Bits.Reader.ReadSEGolomb | pkg/bits/reader.go:129-135 | the signed number of the code at the cursor |
| Bits.NumSplit | pkg/bits/reader.go:64-69 | a field is the concatenation of any split of it into two fields |
| Bits.UeInvertsCode | pkg/bits/reader.go:118-126 | reading inverts the ue(v) code of section 9.1 of ITU-T H.264 at any alignment, for codes with at most 31 leading zeros |
| Bits.SeInvertsCode | pkg/bits/reader.go:129-135 | reading inverts the se(v) code of section 9.1.1 of ITU-T H.264 at any alignment |
| Bits.Writer.WriteBit | pkg/bits/writer.go:22-32 | the number written so far is doubled and the bit added; the bytes hold that number, left-aligned |
| Bits.Writer.WriteBits | pkg/bits/writer.go:34-50 | the low n bits of the value are appended to the number written so far |
| Bits.Writer.WriteBytes | pkg/bits/writer.go:74-82 | on a byte boundary the bytes are appended |
| Bits.BeInjective | pkg/bits/writer.go:22-32 | equally long byte strings that hold the same number are equal, so that the writer's number determines its bytes |
| Sps.DecodeSPS | pkg/h264/sps.go:90-222 | the sequence of reads gives the fields that the syntax places at each position, or nothing when the data ended early |
| Sps.ScalingList | pkg/h264/sps.go:225-237 | the reader stops where the scaling list ends, with the running remainder of the source |
| Sps.FixPixFmt | pkg/h264/sps.go:279-366 | the array becomes Fixed of its old contents: one bit cleared in place at the position that the second parser reaches |
| Sps.FixedChangesOneBit | pkg/h264/sps.go:279-366 | for all bytes, valid or not, at most one bit changes, and only from one to zero |
| Sps.FixedSkipsScalingLists | pkg/h264/sps.go:279-366 | with any scaling list present the bytes do not change |
| Sps.FixedDecodes | pkg/h264/sps.go:90-366 | for a set that DecodeSPS accepts and that has no scaling list, decoding the result gives the same struct with a full range flag of 0: both parsers walk in lockstep |
| Sps.FixedIsIdempotent | pkg/h264/sps.go:279-366 | fixing twice is fixing once, for all bytes |
| Sps.FixedPixFmt | pkg/h264/sps.go:253-366 | yuvj420p becomes yuv420p and no other pixel format changes |
| SpsPrint.PrintDecodes | pkg/h264/sps.go:90-237 | for every set, in the order of the tables of clauses 7.3.2.1.1 and E.1.1 of ITU-T H.264, with any profile, scaling lists and offsets, decoding what was printed gives the set, whatever bits follow |
| SpsPrint.SetReads | pkg/h264/sps.go:90-237 | the same of any bytes that start with the bits of a set; a scaling list is found exactly when one is present, and the full range flag at its place |
| SpsPrint.PrintFixed | pkg/h264/sps.go:279-366 | fixing what was printed gives the print of the set with a full range flag of zero, and with a scaling list the same bytes |
| Nalu.EmitNalus | pkg/h264/payloader.go:34-82 | the units of the Annex B or AVCC data, in order, as the scanning loop emits them |
| Nalu.AnnexBSeparable | pkg/h264/payloader.go:34-68 | for all bytes, no emitted unit contains a start code, and only the last may end in a zero |
| Nalu.AnnexBInverse | pkg/h264/payloader.go:34-68 | a stream of start codes and units splits into exactly those units if and only if none contains 00 00 01 and none but the last ends in 00 |
| Nalu.AvccOfJoin | pkg/h264/payloader.go:69-82 | EmitNalus after JoinNALU gives the non-empty units in order and does not panic, below 2^32 bytes |
| Nalu.JoinNALU | pkg/h264/avcc.go:31-51 | the array filled by index holds each non-empty unit behind its size |
| Nalu.SplitNALU | pkg/h264/avcc.go:53-69 | the pieces concatenate to the input, and all but the last are as long as their size field says |
| H264Payloader.Payloader.Payload | pkg/h264/payloader.go:85-188 | the payloads and the carried STAP-A are those of the units that EmitNalus gives, one after the other |
| H264Payloader.Payloader.Fragment | pkg/h264/payloader.go:129-186 | the FU-A packets of a unit over the limit |
| H264Payloader.UnitsDelivered | pkg/h264/payloader.go:85-188 | for every mtu, a receiver written from sections 5.6 to 5.8 of RFC 6184 gets exactly the delivered units in order, and the pending parameter sets go to the next call |
| H264Payloader.RunDelivered | pkg/h264/payloader.go:85-188 | the same over any run of calls, each with its own mtu |
| H264Payloader.JoinedDelivered | pkg/h264/payloader.go:34-188 | from JoinNALU through EmitNalus and Payload to the receiver |
| H264Payloader.NothingLost | pkg/h264/payloader.go:85-188 | with an mtu of at least 3 and parameter-set groups that fit, delivered and pending units are exactly what came in, minus types 9 and 12, in order |
| H264Payloader.PendingAreSets | pkg/h264/payloader.go:98-116 | what is pending are exactly the units of types 7 and 8 that came last among those that are sent |
| H264Payloader.FragmentShape | pkg/h264/payloader.go:129-186 | a fragmented unit has at least two FUs; only the first has S, only the last has E, and none is over the mtu |
| H264Payloader.PayloadsFit | pkg/h264/payloader.go:85-188 | every payload is at most the mtu, whatever was carried |
| H265Payloader.Payloader.Payload | pkg/h265/payloader.go:129-301 | the payloads of the units of an access unit: single, aggregated or fragmented |
| H265Payloader.Payloader.FlushBufferedNals | pkg/h265/payloader.go:138-206 | one buffered unit goes out alone, several as one aggregation packet |
| H265Payloader.Payloader.Fragment | pkg/h265/payloader.go:240-296 | the fragmentation units of a unit over the limit |
| H265Payloader.AllArrive | pkg/h265/payloader.go:129-301 | a receiver written from sections 4.4.1 to 4.4.3 of RFC 7798 gets exactly the units that can be sent, in order |
| H265Payloader.NothingLost | pkg/h265/payloader.go:208-298 | with an mtu of at least 4 these are all non-empty units |
| H265Payloader.JoinedArrives | pkg/h265/payloader.go:129-301 | from JoinNALU through EmitNalus and Payload to the receiver, for an mtu of at least 4 |
| H265Payloader.ApHeaderFields | pkg/h265/payloader.go:165-202 | an aggregation packet has type 48, no forbidden bit, and the minimum layer and temporal id |
| H265Payloader.MinimaAreLeast | pkg/h265/payloader.go:165-202 | these minima are lower bounds that some unit attains |
| H265Payloader.AllFit | pkg/h265/payloader.go:129-301 | single and FU packets are at most mtu, aggregation packets at most mtu + 2 |
| H265Rtp.Depacketizer.Handle | pkg/h265/rtp.go:19-114 | one packet moves the state of the closure and emits an access unit as the transition function says |
| H265Rtp.Packetizer.Handle | pkg/h265/rtp.go:117-147 | numbered packets of the payloads, the marker on the last, sequence numbers modulo 2^16 |
| H265Rtp.UnitFromOneRun | pkg/h265/rtp.go:19-114 | whatever was received, lost or malformed, an emitted access unit is made of one run of packets with consecutive sequence numbers, ending in the packet that completed it, and of nothing else |
| H265Rtp.GapDiscards | pkg/h265/rtp.go:38-46 | a gap while data is collected discards all of it |
| H265Rtp.WholeIsCollected | pkg/h265/rtp.go:86-93 | a fragmentation unit with both bits set, of any unit of at least two bytes, adds that unit behind its size |
| H265Loss.PanicsExactly | pkg/h265/rtp.go:19-114 | whatever packets arrive, the receiver writes out of range if and only if one of them is the last fragment of a unit, in sequence, while data is collected without a first fragment of its own, and the place where the last unit that had a first fragment kept its size is then not wholly within the data, and starts at most 4 bytes after its end; all this is told from lengths, types, flags and sequence numbers alone |
| H265Loss.StaleStartPanics | pkg/h265/rtp.go:76-91 | a loss of three packets after which that happens |
| H265Loss.LossesAreHarmless | pkg/h265/rtp.go:19-114 | it never happens, whatever is lost of the packets RTPPay makes of access units without units of type 49, as long as fewer than 2^16 packets are lost at once |
| H265Loss.ManyLostPanics | pkg/h265/rtp.go:38-46 | it happens with exactly 2^16 packets of such a sender lost at once |
| H265Loss.OddTypePanics | pkg/h265/rtp.go:57-91 | it happens with nothing lost when an access unit has a unit of type 49 |
| H265RoundTrip.RoundTrip | pkg/h265/rtp.go:11-147 | RTPDepay after RTPPay restores an access unit, with the stored parameter sets in front of a fragmented intra picture, if and only if no two units share an aggregation packet and the last is not a short parameter set or SEI |
| H265RoundTrip.RunRoundTrip | pkg/h265/rtp.go:11-147 | every access unit of a lossless run comes back, in order |
| Aac.HeaderSize | pkg/aac/adts.go:69-82 | ReadADTSSize after WriteADTSSize gives the size back, below 2^13, and the sync pattern stays |
| Aac.CodecToADTS | pkg/aac/adts.go:94-122 | the bit writer gives a header of seven bytes whose fields, at their bit positions in ISO/IEC 13818-7, are the syncword, layer 0, no checksum, the type minus one, the frequency index and the channels in two, four and three bits, a length of zero and a fullness of all ones |
| Aac.HeaderTells | pkg/aac/adts.go:26-66 | the type, frequency index and channels that ADTSToCodec reads are those of the config if and only if the type is between 1 and 4 and there are fewer than eight channels |
| Aac.SameHeader | pkg/aac/adts.go:94-122 | these fields determine the seven bytes |
| Aac.FrameHeader | pkg/aac/adts.go:20-82 | with a size written into it, whatever the size, a header keeps the fields that ADTSToCodec reads and announces no checksum; below 2^13 it also has that size and keeps the rest |
| AacConfig.ADTSToCodec | pkg/aac/adts.go:26-66 | a header gives a codec with the rate and channels at its bit positions, and two bytes that hold type, index and channels |
| AacConfig.ThroughADTS | pkg/aac/adts.go:26-122 | from a config to a header and back: the config decodes to the same type, index, channels and rate if and only if the type is between 1 and 4 and there are fewer than eight channels; a rate outside the table is lost |
| Aac.DecodeConfig | pkg/aac/aac.go:61-78 | the object type, frequency index, channels and rate at their bit positions, with both escapes: an index of 15 is followed by a rate of 24 bits, any other selects it from the table |
| Aac.RatesAreHalves | pkg/aac/aac.go:24-27 | the table of rates: 96000, 88200 and 64000, each rate after them half of the one three before, then 7350, and three zeros |
| AacConfig.EncodeConfig | pkg/aac/aac.go:80-117 | the bit writer gives the fields of the config, one after the other, in as few bytes as hold them |
| AacConfig.ConfigReads | pkg/aac/aac.go:61-117 | what DecodeConfig makes of an encoded config, for every type, rate and channel number |
| AacConfig.EncodeThenDecode | pkg/aac/aac.go:61-117 | type, rate and channels come back if and only if the type is below 96 and not 31, the rate is below 2^24 and there are fewer than 16 channels |
| AacConfig.TailReads | pkg/aac/aac.go:98-117 | after the channels a low delay config has the frame flag and four zero bits, an enhanced one the flag and ten, any other nothing |
| Aac.RTPToADTS | pkg/aac/rtp.go:118-149 | one ADTS frame for each unit that the headers announce |
| Aac.ADTStoRTP | pkg/aac/rtp.go:100-110 | the AU headers of the frames in front of the frames |
| Aac.HeaderFields | pkg/aac/rtp.go:100-110 | each AU header has the size of its unit in thirteen bits and an index of zero in three |
| Aac.Depacketizer.Handle | pkg/aac/rtp.go:12-64 | the packets of a payload and the advanced timestamp |
| Aac.TimedAt | pkg/aac/rtp.go:26-60 | the i-th unit of a payload has the timestamp advanced by 1024 for each unit, modulo 2^32 |
| Aac.ThereAndBack | pkg/aac/rtp.go:12-149 | units taken to ADTS, back to RTP and apart again are the original units in order, for 1 to 4095 units of 1 to 8184 bytes that do not start with the sync pattern |
| Aac.PayRoundTrip | pkg/aac/rtp.go:12-98 | RTPDepay after RTPPay gives the unit back if and only if it is shorter than 2^13 bytes and does not look like a frame |
| Iso.Movie.StartAtom | pkg/iso/iso.go:21-25 | a placeholder and the name are appended, and the start is pushed |
| Iso.Movie.EndAtom | pkg/iso/iso.go:27-35 | the size is patched at the start on top of the stack, which is popped |
| Iso.CallsSerialise | pkg/iso/iso.go:21-35 | for any forest of boxes the balanced calls append its recursive serialisation, whatever is open outside |
| IsoReader.DecodeAtom | pkg/iso/reader.go:63-183 | one box, by name, or end of file, or a panic |
| IsoReader.DecodeAtoms | pkg/iso/reader.go:185-203 | the atoms of all boxes, those of containers spliced in |
| IsoReader.DecodeTrun | pkg/iso/reader.go:146-176 | the fields that the flags announce, sample by sample, through the bit reader |
| IsoReader.DecodeInvertsSerial | pkg/iso/reader.go:63-203 | decoding the serialisation of any tree of boxes gives its leaves in order, up to the first that does not decode |
| IsoFragment.WriteMovieFragment | pkg/iso/atoms.go:279-333 | the calls append the fragment's box, with a data offset that counts to the payload |
| IsoFragment.WriteData | pkg/iso/atoms.go:335-339 | the calls append the data box |
| IsoFragment.FragmentRoundTrip | pkg/iso/atoms.go:279-339 | DecodeAtoms of a fragment and its data gives the same sequence, track, duration, size, flags, decode time, composition offset and data; the run's offset is the index of the first data byte |
| IsoPrint.FragmentIs | pkg/iso/atoms.go:279-339 | the bytes of a fragment and its data are those of the boxes of section 8.8 of ISO/IEC 14496-12, with their names, versions and flags |
| IsoPrint.RunReads | pkg/iso/reader.go:146-176 | for every choice of fields and any samples, decoding a run printed after section 8.8.8 gives its offset, its first flags and the fields of each sample |
| IsoPrint.TfhdReads | pkg/iso/reader.go:121-141 | a track fragment header without data offset and description index gives its fields back; with a data offset its high half is taken for the duration |
| IsoPrint.HeadersRead | pkg/iso/reader.go:77-81 | track and media headers of version 0 give the track and the time scale; of version 1 the high half of the modification time |
| IsoPrint.TimesRead | pkg/iso/reader.go:143-144 | decode times of version 1 are read, of version 0 they panic |
| IsoPrint.VideoReads | pkg/iso/reader.go:89-97 | a visual sample entry gives the content of the configuration box behind its header |
| IsoPrint.AudioReads | pkg/iso/reader.go:99-116 | an audio sample entry gives its channels and rate; its configuration if and only if something follows it in the descriptor, and a panic when it then has 255 bytes |
| Mp4Muxer.Muxer.AddTrack | pkg/mp4/muxer.go:20-24 | one more track, starting at zero |
| Mp4Muxer.Muxer.Reset | pkg/mp4/muxer.go:113-119 | all times and the index return to zero |
| Mp4Muxer.Muxer.GetPayload | pkg/mp4/muxer.go:121-172 | the new index and times, and the bytes of the fragment |
| Mp4Muxer.IsKeyframe | pkg/h264/h264.go:27-44 | the loop over the units of the access unit, for H.264 and likewise for H.265 |
| Mp4Muxer.KeyframeOfUnits | pkg/h264/h264.go:27-44 | for joined units the answer is whether the first slice among them is an intra one |
| Mp4Muxer.WrittenDecodes | pkg/mp4/muxer.go:153-171 | decoding the bytes of a call gives the index, track, duration, size, flags and decode time of that call |
| Mp4Muxer.PayloadSays | pkg/mp4/muxer.go:121-172 | what GetPayload returned decodes to five atoms with the next number, the track, the decode time, the size and the payload; the duration is 1024 for AAC, else the difference of timestamps when that is between one and the clock rate; the composition time is that of the packet, and the run points at the payload |
| Mp4Muxer.PayloadFlags | pkg/mp4/muxer.go:128-145 | its sample flags: for joined units the non-sync bit is clear and depends-on is 2 if and only if an IDR (in H.265 IDR or CRA) slice comes before any unit of type 1, else they are set and 1; sound is always a sync sample; all other bits are zero |
| Mp4Muxer.DurationsOfRun | pkg/mp4/muxer.go:147-151 | in every run each duration is at least 1, and at most the clock rate of its track if and only if that is at least 1 |
| Mp4Muxer.TimelineOfRun | pkg/mp4/muxer.go:113-172 | in every run each fragment's decode time is the sum of its track's earlier durations since the last reset, and its sequence number counts the fragments |
| Mp4Muxer.DriftOfPacket | pkg/mp4/muxer.go:121-172 | except for AAC, the difference of decode time and timestamp is unchanged if and only if the packet does not leave the one-second window; a repeated timestamp keeps it; a jump moves it by what was jumped over |
| Mp4Muxer.DriftOfRun | pkg/mp4/muxer.go:121-172 | over any run without such a jump the difference is constant |
| LogRing.CircularBuffer.Write | internal/app/log.go:131-161 | the live chunks become those of Push: the newest is extended, or a chunk is started and the oldest of sixteen dropped |
| LogRing.CircularBuffer.WriteTo | internal/app/log.go:163-181 | the concatenation of the live chunks, around the ring |
| LogRing.CircularBuffer.Reset | internal/app/log.go:183-189 | one empty live chunk |
| LogRing.PushesLive | internal/app/log.go:131-161 | index arithmetic and reuse of chunks refine Push on the list of live chunks |
| LogRing.RunDescribes | internal/app/log.go:131-189 | after any run the live chunks hold whole writes in order, behind those that were dropped |
| LogRing.SuffixOfWrites | internal/app/log.go:131-189 | WriteTo gives a suffix of whole writes since the last reset, ending with the newest; longer than 8 * 65536 bytes once a write is lost; at most 16 * 65536 bytes when every write is at most 65536 |
| LogRing.ShortWrites | internal/app/log.go:131-189 | with writes of at most m bytes, at least 15 * (65537 - m) bytes are kept once a write is lost |
| Sender.Sender.Input | pkg/core/track.go:93-106 | the packet is queued and counted, or dropped when the queue is full or the sender closed |
| Sender.Sender.Start | pkg/core/track.go:133-149 | a worker and done, once, and not after Close |
| Sender.Sender.Close | pkg/core/track.go:167-177 | the channel is closed at most once: its precondition is that it is open |
| Sender.Sender.Turn | pkg/core/track.go:142-148 | one turn of the worker is a protocol step, and it moves whenever it can |
| Sender.NeverPanics | pkg/core/track.go:78-177 | in every interleaving nothing is sent on or closed twice on a closed channel, and the queue stays within its capacity |
| Sender.Conserved | pkg/core/track.go:78-177 | in every interleaving the accepted packets are the handled ones, the one in hand and the queue, in order; packets and drops add up to the inputs, bytes to the lengths |
| Sender.DoneMeansHandled | pkg/core/track.go:142-148 | done is signalled only after Close and when every accepted packet is handled |
| Sender.WorkerFinishes | pkg/core/track.go:142-155 | from any started and closed state the worker alone reaches done with every accepted packet handled |
| Node.Node.AppendChild | pkg/core/node.go:42-48 | the child comes last and knows its parent |
| Node.Node.RemoveChild | pkg/core/node.go:50-59 | the first occurrence is removed |
| Node.Node.Close | pkg/core/node.go:61-73 | a leaf leaves its root; a root is left with what the loop over its shifting slice misses |
| Node.ClosingLeaves | pkg/core/node.go:61-73 | closing a root detaches all its children if and only if it has at most two; of more, every second one stays |
| Node.MoveNode | pkg/core/node.go:75-88 | the target has the children, in order, and each of them the target as parent |
| Node.Replace | pkg/core/track.go:54-56 | moving to a childless root keeps a forest a forest |
| Connection.Conn.GetTrack | pkg/core/connection.go:59-68 | one receiver for each codec address, made only when there is none, or a refusal |
| Connection.Conn.Stop | pkg/core/connection.go:70-81 | every receiver is closed as a root, every sender leaves the track it listens to, and nothing else changes |
| Lifecycle.EveryRun | internal/streams/producer.go:57-270 | in every interleaving of dialling, taking tracks, starting, worker exits, retry timers, reconnects and stops: no nil connection is used; at most one activity carries the current worker number, exactly one while started; a connection exists exactly outside the idle state; every connection is stopped exactly once except the one in use |
| Lifecycle.StopIsFinal | internal/streams/producer.go:160-270 | after stop, whatever the old goroutines and timers do, the producer stays idle and nothing is dialled |
| Lifecycle.StartIsKept | internal/streams/producer.go:144-243 | without a stop a started producer stays started under the same worker number, however often it reconnects |
| Producer.Producer.Dial | internal/streams/producer.go:57-72 | is the dial step of the protocol |
| Producer.Producer.GetTrack | internal/streams/producer.go:85-111 | is the step of the protocol, returns the known track of a codec or appends a new one, and leaves the idle and dialled states |
| Producer.Producer.AddTrack | internal/streams/producer.go:113-132 | is the step of the protocol; on success the track has a child |
| Producer.Producer.Start | internal/streams/producer.go:144-158 | is the start step of the protocol |
| Producer.Producer.Returns | internal/streams/producer.go:160-174 | is the step of a worker whose connection ended |
| Producer.Producer.MoveTracks | internal/streams/producer.go:206-233 | every receiver keeps its children, on the old or on a new track, and the graph stays a forest |
| Producer.Producer.Reconnect | internal/streams/producer.go:176-243 | is the reconnect step; exactly the planned receivers get a new track, the children of every receiver are kept if and only if each receiver of the old connection that has children is among them, and parents name the receivers |
| Producer.OneMediaLosesOne | internal/streams/producer.go:206-224 | a connection that offers only the first of two codecs moves only the first receiver |
| Producer.RefusalLosesOne | internal/streams/producer.go:217-220 | a connection that refuses a track moves nothing |
| Producer.AllMove | internal/streams/producer.go:206-224 | a connection with one media for each receiver, matching no other, that refuses none moves all receivers |
| Producer.Producer.Stop | internal/streams/producer.go:245-270 | is the stop step; the producer has no tracks afterwards unless it is external |
| Stream.EveryRunIsGood | internal/streams/add_consumer.go:10-115 | in every interleaving of the mutex sections of AddConsumer, RemoveConsumer, stopProducers, AddProducer, RemoveProducer and the goroutines of the producers, reconnects that lose tracks and sweeps in the middle of a reconnect included: pending counts the calls that match, children and tracks agree, lives are consistent |
| StreamLinks.StepLinks | internal/streams/producer.go:85-132 | for every step of every goroutine: a consumer is linked to a producer afterwards exactly when the step hands a track of the connection in use over or carries one to the next connection, or it was linked and the step is not a stop of the producer, a reconnect without this link, or the leave of the consumer |
| StreamRuns.EveryRunIsExact | internal/streams/add_consumer.go:10-115 | in every interleaving a call or consumer is linked to no producer but those it matched by a track, and a producer that is linked and was started is up |
| StreamRuns.LinkedExactly | internal/streams/add_consumer.go:10-115 | in every interleaving a call or consumer is linked to a producer exactly when a link was made and none of the later steps broke it |
| StreamRuns.ConsumersAreServed | internal/streams/add_consumer.go:10-115 | in every interleaving an added consumer is linked to a producer, which is then up and one it matched by a track, exactly when the link was made and kept |
| StreamRuns.StartedExactly | internal/streams/producer.go:144-158 | when AddConsumer has called start for a producer it is up exactly when a track of it was taken or given to it and it was not stopped since; if the link was kept it is linked |
| StreamCalm.CalmRunsServe | internal/streams/add_consumer.go:10-115 | if tracks are taken and given while no stopProducers is past its check, no stopProducers reads the tracks of a producer in the middle of its reconnect, and every reconnect carries all links and does not hit a track that a consumer holds, each added consumer is linked to exactly the producers it matched by a track, and these are up |
| StreamRaces.TakenIsKept | internal/streams/stream.go:97-119 | a track has just been taken of a producer without children. On every continuation the consumer gets the producer and keeps it, if and only if no stopProducers waits for the mutex having found nothing pending, and none that has it still has this producer before it. The continuations are all those in which the consumer does not leave or come again, takes tracks of the connection in use, the producer does not reconnect while its track is held or without the link, and no stopProducers reads it in the middle of a reconnect |
| StreamRaces.SweepCuts | internal/streams/stream.go:97-119 | in every state with such a stopProducers there is a continuation of this kind that stops the producer and leaves the consumer unlinked |
| StreamExamples.SweepCutsConsumer | internal/streams/stream.go:97-119 | a run in which AddConsumer succeeds while its producer is idle: a stopProducers checked pending before the consumer came |
| StreamExamples.ReconnectCutsConsumer | internal/streams/producer.go:206-240 | a run in which a reconnect leaves a consumer in the list without a link |
| StreamExamples.GlimpseCutsConsumer | internal/streams/producer.go:206-233 | a run in which a stopProducers reads the tracks of a producer in the middle of a reconnect, finds no children and stops it, and its consumer has nothing |
| StreamExamples.BareIsNotServed | internal/streams/add_consumer.go:48-115 | a run in which AddConsumer succeeds after a match by a sendrecv media alone, and its producer is idle |
| StreamExamples.GhostKeepsProducer | internal/streams/stream.go:64-119 | a run in which a two-way consumer gives a track and leaves, a reconnect listens to that track again, the last consumer leaves, and its sweep keeps the producer up |
| StreamExamples.ListGrows | internal/streams/add_consumer.go:14-30 | over every run the list of producers grows by those that join minus those that are removed, so that AddConsumer reaches an index past its errors exactly when more joined than were removed since it began |
| StreamExamples.ErrorsRunOut | internal/streams/add_consumer.go:14-41 | a run in which AddConsumer begins with one producer and comes to a second |
| StreamSweeps.StopProducersExact | internal/streams/stream.go:97-119 | an undisturbed stopProducers does nothing while an AddConsumer is matching; otherwise a listed producer that is not external is up exactly when one of its tracks has a child |
| StreamSweeps.StopTouchesNothing | internal/streams/stream.go:97-119 | stopping a producer without children leaves all tracks as they are |
| StreamSweeps.LastConsumerLeaves | internal/streams/stream.go:64-119 | removing the last consumer returns a listed producer that is not external to the idle state with no tracks, if and only if no track that it listened to keeps a child: one of the leaving consumer with more than two, or one of an earlier consumer with any |
| StreamSweeps.LastOfTidyRun | internal/streams/stream.go:64-119 | two-way consumers may have come and gone: if the tracks of each had at most two children when it left, and no reconnect listened to tracks of consumers that were gone, the last one to leave returns the producers to the idle state |
| StreamSweeps.BareIsUp | internal/streams/add_consumer.go:48-115 | a producer matched by a sendrecv media alone is up after start exactly when it has a child or is external, or, while another call matches, when a track was taken |
| StreamMethods.Streams.StopProducers | internal/streams/stream.go:97-119 | the loop is a path of protocol steps, and stops exactly the listed producers without children |
| StreamMethods.Streams.RemoveConsumer | internal/streams/stream.go:64-77 | the leave of the consumer and the sweep after it, as a path of protocol steps |
| Connection.MatchesExactly | pkg/core/codec.go:126-135 | a codec matches the names ALL and ANY, and itself with its rate, its channels or both left open, and nothing else |
| Connection.MatchCodecIsFirst | pkg/core/media.go:68-75 | the first codec of the media that matches, and none exactly when none does |
| StreamMatching.MediasMatch | pkg/core/media.go:49-66 | two medias match exactly when they are of one kind, flow in opposite directions unless the first flows both ways, and share a codec; the pair returned is the first that matches, in the order of the first media and then of the other |
| StreamMatching.MatchAll | pkg/core/media.go:77-84 | the loop finds out whether a codec is named ALL |
| StreamMatching.LookedOnce | internal/streams/add_consumer.go:48-91 | when nobody refuses, of the medias of a producer exactly one is taken for an ordinary media of the consumer, the first that matches, and no media after it is looked at |
| StreamMatching.OrdinaryTakesOne | internal/streams/add_consumer.go:22-91 | when nobody refuses, a media of the consumer without a codec named ALL takes exactly one track, of the first producer in the list, other than the consumer itself, that offers it, and no producer after it is dialled |
| StreamMatching.TakenIsChosen | internal/streams/add_consumer.go:22-91 | when nobody refuses, a media with a codec named ALL takes every producer other than the consumer itself that offers it, and an ordinary one the first |
| StreamMatching.AllTaken | internal/streams/add_consumer.go:18-93 | the producers taken by all medias together are those chosen by each |
| StreamMethods.Streams.TryMedia | internal/streams/add_consumer.go:48-88 | steps 3 to 5 for one media of a producer: it is passed by exactly when the medias do not match; otherwise it is taken or one side refuses, and a taken one hands over a track of the codec that matched, the producer's or the consumer's by direction, and is recorded for the start; a sendrecv media is taken without a track |
| StreamMethods.Streams.TryMedias | internal/streams/add_consumer.go:43-91 | the loop over the medias of a producer ends with the first that is taken, unless the consumer wants all |
| StreamMethods.Streams.TryProducers | internal/streams/add_consumer.go:22-91 | the loop over the producers for one media of the consumer: the consumer itself and producers with an error are passed over, the others are dialled and looked at in order, up to the first match unless the consumer wants all; what is recorded, handed over and dialled is what these visits say |
| StreamMethods.Streams.AddConsumer | internal/streams/add_consumer.go:10-115 | the loops are a path of protocol steps from begin to return, with the visits of every media; it succeeds exactly when a media was taken, and records the producers that gave or heard a track; when nobody refuses, those taken are for each media of the consumer the first producer but itself that offers it, or with a codec named ALL all that do |
| MpegTsMuxer.Muxer.AddTrack | pkg/mpegts/muxer.go:20-35 | consecutive identifiers from 0x100 |
| MpegTsMuxer.Muxer.GetHeader | pkg/mpegts/muxer.go:37-42 | the bit writer gives the PAT and the PMT of the tracks, for every number of tracks |
| MpegTsMuxer.Muxer.GetPayload | pkg/mpegts/muxer.go:45-94 | the packets of the PES with the next time and counter of the stream |
| MpegTsMuxer.Muxer.WritePES | pkg/mpegts/muxer.go:146-177 | one packet of 188 bytes, stuffed when short |
| MpegTsMuxer.WritePSIHeader | pkg/mpegts/muxer.go:193-211 | the section header with a length of ten bits |
| MpegTsFormat.TimeReads | pkg/mpegts/muxer.go:218-226 | readTime after WriteTime gives all 32 bits back |
| MpegTsDemuxer.Demuxer.ReadBits | pkg/mpegts/demuxer.go:280-292 | the next n bits of the buffer through the byte-sized cursor, or a fault past its end |
| MpegTsDemuxer.Demuxer.ReadPacketHeader | pkg/mpegts/demuxer.go:69-96 | the identifier, the start mark and where the payload starts, or the errors for the sync byte and the adaptation field |
| MpegTsDemuxer.Demuxer.ReadPAT | pkg/mpegts/demuxer.go:129-144 | the identifier of the program table, or a fault |
| MpegTsDemuxer.Demuxer.ReadPMT | pkg/mpegts/demuxer.go:147-178 | the streams, or a fault, with cursor arithmetic modulo 256 |
| MpegTsDemuxer.Demuxer.ReadTime | pkg/mpegts/demuxer.go:294-305 | the low 32 bits of the time at the cursor |
| MpegTsDemuxer.Demuxer.ReadPES | pkg/mpegts/demuxer.go:180-250 | a started, continued or finished PES, with sizes modulo 256 and 2^16; a buffer that must be read again is marked |
| MpegTsDemuxer.Demuxer.ReadPacket | pkg/mpegts/demuxer.go:32-67 | the loop over the input gives the next packet, the end, an error or a panic, as the recursive reader says |
| MpegTsRoundTrip.PmtReads | pkg/mpegts/demuxer.go:147-178 | for up to 33 tracks the written PMT reads back as the table of identifiers and types |
| MpegTsRoundTrip.FeedCall | pkg/mpegts/demuxer.go:180-250 | after the packets of one call its stream has the payload of the call, however long, and hands it out if its length fits into the header |
| MpegTsRoundTrip.MuxThenDemux | pkg/mpegts/muxer.go:37-94 | for 1 to 33 tracks and any run of calls with payloads of any length, demuxing the header and the output gives the table and then the delivered packets with their times and payloads, and then the end: a payload of 1 to 65527 bytes comes out with its own call, a longer one, whose length does not fit, before the next call of its stream |
| MpegTsRoundTrip.OnePacketEach | pkg/mpegts/muxer.go:37-94 | with payloads of 1 to 65527 bytes on streams that the demuxer converts, these are one packet for each call, in order |
| MpegTsRoundTrip.OncePerCall | pkg/mpegts/muxer.go:37-94 | in general each call with a payload on such a stream gives exactly one packet, which is delivered or still with the demuxer at the end |
| MpegTsRoundTrip.ClockCounts | pkg/mpegts/muxer.go:53-56 | with earlier timestamps that are not zero a time is the timestamp minus the first, modulo 2^32 |
| MpegTsRoundTrip.ClockExact | pkg/mpegts/muxer.go:53-56 | in general it also misses the timestamps that follow a zero, and counts from the first if and only if these add up to zero modulo 2^32 |
| MpegTsRoundTrip.PacketShape | pkg/mpegts/muxer.go:146-177 | a call writes a multiple of 188 bytes, each packet with the sync byte, its identifier and a counter one more than the last modulo 16, only the first marked as start |
| MpegTsRoundTrip.CounterContinues | pkg/mpegts/muxer.go:86-90 | the counter of a call goes on where the stream's earlier calls stopped |
| MpegTsTimes.UnitsDemuxed | pkg/mpegts/demuxer.go:32-378 | demuxing tables and then any run of PES packets, printed after section 2.4.3.6 of ISO/IEC 13818-1 with presentation and decode times, any other header fields and with or without a length, on any of 1 to 33 streams, gives the table and then the packet of each unit |
| MpegTsTimes.OutExact | pkg/mpegts/demuxer.go:180-250 | in it every unit with a payload comes out once, those of a stream in order, except the last of a stream when it has no length |
| MpegTsTimes.TimesOfVideo | pkg/mpegts/demuxer.go:361-378 | with a decode time the timestamp of a video packet is that time modulo 2^32 if and only if this is not zero or the presentation time is zero, too; timestamp and cts add up to the presentation time if and only if the decode time is zero modulo 2^32 or the difference fits 16 bits; without one the timestamp is the presentation time and cts is zero |
| MpegTsTimes.FieldReads | pkg/mpegts/demuxer.go:294-305 | readTime of a printed 33-bit time is that time modulo 2^32 |
| MpegTsTables.TransportReads | pkg/mpegts/demuxer.go:69-96 | of any transport packet, with any marks and adaptation field, the demuxer finds the identifier, the start mark and the payload, and gives up exactly when there is no byte of payload |
| MpegTsTables.AssociationReads | pkg/mpegts/demuxer.go:107-144 | of a program association table in one packet, with any filler, version and programs, the demuxer takes the last program but number 0 |
| MpegTsTables.MapTableReads | pkg/mpegts/demuxer.go:107-178 | of a program map table in one packet, with any descriptors, the demuxer takes every stream, private ones with an Opus descriptor under a type of their own |
| MpegTsTables.EnteredIs | pkg/mpegts/demuxer.go:147-178 | the last entry of an identifier counts |
| MpegTsTables.MuxerPacket | pkg/mpegts/muxer.go:146-191 | the muxer writes transport packets with a payload, and an adaptation field when that is short |
| MpegTsTables.MuxerPes | pkg/mpegts/muxer.go:20-94 | a call writes a PES packet with stream identifier 0xE0 or 0xC0 and a presentation time alone |
| MpegTsTables.MuxerAssociation | pkg/mpegts/muxer.go:100-113 | the header has a table of one program, whose table is at 0x1000 |
| MpegTsTables.MuxerMap | pkg/mpegts/muxer.go:115-144 | and a table of its streams from 0x100 on, for up to 33 tracks |

## Left out

Contracts that are weaker than the code on purpose:

- Bits.Writer.WriteBytes: only on a byte boundary, because elsewhere WriteByte, WriteUint16 and WriteBytes of the source write the data twice.
- H264Payloader.UnitsDelivered: units whose type is not 1 to 23 are excluded, because a receiver takes the others for packets.
- H265Payloader.AllArrive: units of type 48 and above, and one-byte units under the limit, are excluded; the decoding order fields of AddDONL are not modelled.
- H265Rtp.Depacketizer.Handle: packets of other RTP versions, which the wrapping code passes on, are not modelled.
- Node.Node.Close: graphs of roots and leaves only, because nothing in the repository hangs a child below a sender.
- Producer.Producer.Reconnect: the new connection offers no codec address in two receive-only medias, and its tracks have no children yet; which tracks of p.senders it listens to is arbitrary.
- Stream.EveryRunIsGood: producers, consumers and tracks are numbers in a value, so aliasing of slices is not captured; a read of the children of all tracks of one producer is one step, except in the middle of a reconnect, where it may find none, and so is the stop of a connection, whose parts lock single nodes; the new connection of a reconnect makes a track of its own for each receiver that moves.
- MpegTsTables.MapTableReads: tables that span several packets are not covered; the demuxer reads one packet.
- StreamMethods.Streams.AddConsumer: the answers of connections are arbitrary, so the contract is a relation; the method runs alone, so that no producer is added between two medias of the consumer, which `StreamExamples.ErrorsRunOut` shows as a run; the text of the error is not modelled.
- MpegTsMuxer.Muxer.GetPayload: the stream's writer buffer is not reused, payloads are values; the conversion to Annex B and the checksum are parameters, and the results hold for any.
- MpegTsDemuxer.Demuxer.ReadPacket: the conversions to AVCC and RTP and the cutting of Opus packets are parameters; the types in the table packet, in the order of a Go map, are a multiset.
- MpegTsRoundTrip.MuxThenDemux: streams of type 0xEB (Opus), whose payload is cut by a function that is a parameter, are not covered; streams of any other type than H.264, H.265, AAC and the two of G.711 deliver nothing, as in the source.

Parts that are not modelled:

- ReadBytes, Left and ReadFloat32 of the bit reader; Width, Height and Profile of a parameter set.
- The callback of EmitNalus, which is replaced by the list of its arguments.
- SafariPay, EncodeToADTS beyond the header that it writes, ADTSTimeSize, and the parsing of codec lines and session descriptions, whose results are parameters.
- The movie header and sample tables of GetInit, and boxes that the repository does not read.
- The mutexes of the log ring, the senders and the producers, which make each method one step.
- Capacities of slices, and the reuse of buffers after a slice to length zero.
- The tracks of connections that override GetTrack, beyond that they may refuse.
- Schemes, templates and redirects of URLs.
- G.711, resampling and clock rates in floating point.
- HTTP handlers, configuration, storage, WebRTC, HAP and the camera clients.
