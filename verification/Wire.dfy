/** Frame headers: kinds, features, the 32-byte encoding and the legality of each field. */
module Wire {
  import opened Words

  const WIRE_MAGIC: nat := 0x3154_3243
  const LEGACY_VERSION: nat := 2
  const VERSION: nat := 3
  const HEADER_BYTES: nat := 32
  const MAX_ROWS: nat := 256
  const MAX_SOURCES: nat := 256
  const MAX_REGISTERS: nat := 512
  const MAX_REGISTER_BYTES: nat := 256
  const MAX_PAYLOAD: nat := 4064
  const MAX_ACTION: nat := 256

  const SCHEMA_BYTES: nat := 72
  const CONTEXT_BYTES: nat := 64
  const LAYOUT_BYTES: nat := 24
  const TRANSITION_BYTES: nat := 24
  const WINDOW_BYTES: nat := 40
  const REDUCED_CONTEXT_BYTES: nat := 72
  const SUMMARY_BYTES: nat := 72
  const FILTER_BYTES: nat := 80

  datatype Kind =
    | Hello | Blocks | SourceEnd | Complete | Error
    | RegisterSchema | Registers | Memory | InputRequest | KernelRequest
    | GuestEvent | AddressContext | ExecutableLayout | Mixed | BlockTransitions
    | TransitionWindow | TerminalReport | ContextFilter | ObservationSummary | ReducedContext
    | Unknown(code: nat)

  function KindOf(code: nat): Kind {
    if code == 1 then Hello else if code == 2 then Blocks else if code == 3 then SourceEnd
    else if code == 4 then Complete else if code == 5 then Error else if code == 6 then RegisterSchema
    else if code == 7 then Registers else if code == 8 then Memory else if code == 9 then InputRequest
    else if code == 10 then KernelRequest else if code == 11 then GuestEvent
    else if code == 12 then AddressContext else if code == 13 then ExecutableLayout
    else if code == 14 then Mixed else if code == 15 then BlockTransitions
    else if code == 16 then TransitionWindow else if code == 17 then TerminalReport
    else if code == 18 then ContextFilter else if code == 19 then ObservationSummary
    else if code == 20 then ReducedContext else Unknown(code)
  }

  function Code(kind: Kind): nat {
    match kind
    case Hello => 1 case Blocks => 2 case SourceEnd => 3 case Complete => 4 case Error => 5
    case RegisterSchema => 6 case Registers => 7 case Memory => 8 case InputRequest => 9
    case KernelRequest => 10 case GuestEvent => 11 case AddressContext => 12
    case ExecutableLayout => 13 case Mixed => 14 case BlockTransitions => 15
    case TransitionWindow => 16 case TerminalReport => 17 case ContextFilter => 18
    case ObservationSummary => 19 case ReducedContext => 20 case Unknown(code) => code
  }

  datatype Header = Header(kind: Kind, source: nat, count: nat, sequence: nat, detail: nat, version: nat)

  /** A frame as it travels: header fields and payload bytes. */
  datatype Frame = Frame(header: Header, payload: seq<byte>)

  /** The capture options announced by Hello. */
  datatype Features = Features(
    architecture: nat, memory: bool, registers: bool, memoryValues: bool, stdio: bool, system: bool,
    kernel: bool, window: bool, systemMemory: bool, addressContext: bool, executableLayout: bool,
    mixed: bool, stop: bool, transitionWindows: bool, contextFilter: bool, observationReduction: bool)

  predicate Bit(value: nat, place: nat)
    requires place > 0
  {
    (value / place) % 2 == 1
  }

  function FeaturesOf(detail: nat): Features {
    Features(detail % 0x100, Bit(detail, 0x100), Bit(detail, 0x200), Bit(detail, 0x400), Bit(detail, 0x800),
             Bit(detail, 0x1000), Bit(detail, 0x2000), Bit(detail, 0x4000), Bit(detail, 0x8000),
             Bit(detail, 0x1_0000), Bit(detail, 0x2_0000), Bit(detail, 0x4_0000), Bit(detail, 0x8_0000),
             Bit(detail, 0x10_0000), Bit(detail, 0x20_0000), Bit(detail, 0x40_0000))
  }

  /** Feature combinations Hello may announce. */
  predicate CompatibleFeatures(f: Features, version: nat) {
    && (f.architecture == 1 || f.architecture == 2)
    && (f.memoryValues ==> f.memory)
    && !(f.executableLayout && f.system)
    && (f.systemMemory ==> f.addressContext && f.memory)
    && (f.addressContext ==> f.system && f.architecture == 2)
    && (f.architecture == 2 && f.system && f.registers ==> f.addressContext)
    && (f.kernel ==> f.system) && !(f.stdio && f.system)
    && (f.transitionWindows ==> f.kernel)
    && (f.observationReduction ==>
          version == VERSION && f.system && f.addressContext &&
          !f.kernel && !f.memory && !f.registers && !f.transitionWindows)
    && (f.contextFilter ==>
          version == VERSION && f.addressContext && f.system && f.architecture == 2 && (f.memory || f.registers))
  }

  predicate LegalTerminalReport(h: Header) {
    && h.version == VERSION && h.source == 0 && h.count == 0 && h.sequence == 0
    && h.detail < 0x100_0000
    && h.detail % 0x100 == 1
    && (h.detail / 0x100) % 0x100 == 1
    && h.detail / 0x1_0000 < 0x40
    && (Bit(h.detail, 0x2_0000) ==> Bit(h.detail, 0x1_0000))
    && (Bit(h.detail, 0x8_0000) ==> Bit(h.detail, 0x4_0000))
    && (Bit(h.detail, 0x20_0000) ==> Bit(h.detail, 0x10_0000))
  }

  /** Every field check `decode_header` makes. */
  predicate LegalHeader(h: Header) {
    && (h.version == LEGACY_VERSION || h.version == VERSION)
    && h.source < MAX_SOURCES && h.count <= MAX_ROWS
    && h.sequence <= MAX64 && h.detail <= MAX64
    && match h.kind
       case Mixed => h.count != 0 && 16 <= h.detail <= MAX_PAYLOAD
       case ExecutableLayout => h.source == 0 && h.sequence == 0 && h.count == 1 && h.detail == LAYOUT_BYTES
       case BlockTransitions =>
         h.count != 0 && h.sequence != 0 && h.detail <= MAX_PAYLOAD && h.detail == h.count * TRANSITION_BYTES
       case TransitionWindow => h.source == 0 && h.count == 1 && h.sequence != 0 && h.detail == WINDOW_BYTES
       case ContextFilter =>
         h.version == VERSION && h.source == 0 && h.count == 1 && h.sequence == 0 && h.detail == FILTER_BYTES
       case ObservationSummary => h.count == 1 && h.sequence == 0 && h.detail == SUMMARY_BYTES
       case ReducedContext => h.count != 0 && h.detail == h.count * REDUCED_CONTEXT_BYTES
       case KernelRequest => h.source == 0 && h.count == 0 && h.sequence == 0 && 0 < h.detail <= 127
       case GuestEvent => h.source == 0 && h.count == 0 && h.sequence == 0 && 0 < h.detail <= 1024
       case Blocks => h.count != 0 && h.detail == 0
       case InputRequest => h.source == 0 && h.count == 0 && 0 < h.detail <= MAX_ACTION
       case SourceEnd => h.count == 0 && h.detail == 0
       case RegisterSchema =>
         h.count != 0 && 0 < h.detail <= MAX_PAYLOAD && h.sequence == 0 && h.detail == h.count * SCHEMA_BYTES
       case Registers => h.count != 0 && 0 < h.detail <= MAX_PAYLOAD && h.detail >= h.count * 17
       case Memory =>
         h.count != 0 && 0 < h.detail <= MAX_PAYLOAD &&
         (h.detail == h.count * 24 || h.detail == h.count * 40 || h.detail == h.count * 48 || h.detail == h.count * 64)
       case AddressContext => h.count == 1 && h.detail == CONTEXT_BYTES
       case Hello =>
         h.source == 0 && h.count == 0 && h.sequence == 0 && h.detail < 0x80_0000 &&
         CompatibleFeatures(FeaturesOf(h.detail), h.version)
       case Complete => h.source == 0 && h.count == 0 && h.sequence == 0 && h.detail <= 255
       case Error => h.source == 0 && h.count == 0 && h.sequence == 0 && 1 <= h.detail <= 4
       case TerminalReport => LegalTerminalReport(h)
       case Unknown(_) => false
  }

  function PayloadSize(h: Header): nat {
    match h.kind
    case Blocks => h.count * 8
    case GuestEvent | RegisterSchema | Registers | Memory | AddressContext | ExecutableLayout | Mixed
       | BlockTransitions | TransitionWindow | ContextFilter | ObservationSummary | ReducedContext => h.detail
    case _ => 0
  }

  function EncodeHeader(h: Header): (b: seq<byte>)
    ensures |b| == HEADER_BYTES
  {
    Bytes(WIRE_MAGIC, 4) + Bytes(h.version, 2) + Bytes(Code(h.kind), 2) + Bytes(h.source, 4) +
    Bytes(h.count, 4) + Bytes(h.sequence, 8) + Bytes(h.detail, 8)
  }

  function DecodeHeader(b: seq<byte>): Option<Header> {
    if |b| != HEADER_BYTES || U32(b, 0) != WIRE_MAGIC then None
    else
      var h := Header(KindOf(U16(b, 6)), U32(b, 8), U32(b, 12), U64(b, 16), U64(b, 24), U16(b, 4));
      if LegalHeader(h) then Some(h) else None
  }

  /** A header survives the wire exactly when it is legal; nothing else decodes from it. */
  lemma HeaderRoundTrip(h: Header)
    requires h.source <= MAX32 && h.count <= MAX32 && h.sequence <= MAX64 && h.detail <= MAX64
    requires h.version <= MAX16 && Code(h.kind) <= MAX16 && KindOf(Code(h.kind)) == h.kind
    ensures DecodeHeader(EncodeHeader(h)) == if LegalHeader(h) then Some(h) else None
  {
    hide LegalHeader, Load, Bytes, KindOf, Code;
    var b := EncodeHeader(h);
    Pow256Words();
    assert b[0..4] == Bytes(WIRE_MAGIC, 4);
    assert b[4..6] == Bytes(h.version, 2);
    assert b[6..8] == Bytes(Code(h.kind), 2);
    assert b[8..12] == Bytes(h.source, 4);
    assert b[12..16] == Bytes(h.count, 4);
    assert b[16..24] == Bytes(h.sequence, 8);
    var front := Bytes(WIRE_MAGIC, 4) + Bytes(h.version, 2) + Bytes(Code(h.kind), 2) + Bytes(h.source, 4) +
      Bytes(h.count, 4) + Bytes(h.sequence, 8);
    assert b == front + Bytes(h.detail, 8) && |front| == 24;
    assert b[24..32] == b[24..] == Bytes(h.detail, 8);
    LoadStored(b, 0, 4, WIRE_MAGIC);
    LoadStored(b, 4, 2, h.version);
    LoadStored(b, 6, 2, Code(h.kind));
    LoadStored(b, 8, 4, h.source);
    LoadStored(b, 12, 4, h.count);
    LoadStored(b, 16, 8, h.sequence);
    LoadStored(b, 24, 8, h.detail);
  }

  /** The other direction: a header that decodes is the only one with those bytes. */
  lemma HeaderIsCanonical(b: seq<byte>)
    requires DecodeHeader(b).Some?
    ensures EncodeHeader(DecodeHeader(b).value) == b
  {
    hide LegalHeader, Load, Bytes;
    var h := DecodeHeader(b).value;
    assert Code(KindOf(U16(b, 6))) == U16(b, 6);
    hide KindOf, Code;
    StoredLoad(b, 0, 4);
    StoredLoad(b, 4, 2);
    StoredLoad(b, 6, 2);
    StoredLoad(b, 8, 4);
    StoredLoad(b, 12, 4);
    StoredLoad(b, 16, 8);
    StoredLoad(b, 24, 8);
    assert b == b[0..4] + b[4..6] + b[6..8] + b[8..12] + b[12..16] + b[16..24] + b[24..32];
  }
}
