/** The status word the main loop shares with the callbacks: the phase in bits 0-4, the result
    in 5-6, the closing result in 7-8 and one bit per flag from 9 on. None disturbs another, and
    the word stands for exactly one status. */
module StatusWord {
  import opened Trace
  import opened TransferClient

  // `packed_get` and `packed_put` for each field.

  function PhaseIn(w: bv32): bv32 { w & 0x1F }

  function ResultIn(w: bv32): bv32 { (w >> 5) & 0x3 }

  function ClosingIn(w: bv32): bv32 { (w >> 7) & 0x3 }

  function FlagsIn(w: bv32): bv32 { w & 0xFFFF_FE00 }

  function PutPhase(w: bv32, v: bv32): bv32 { (w & !0x1F) | (v & 0x1F) }

  function PutResult(w: bv32, v: bv32): bv32 { (w & !0x60) | ((v << 5) & 0x60) }

  function PutClosing(w: bv32, v: bv32): bv32 { (w & !0x180) | ((v << 7) & 0x180) }

  /** A phase is read back whole if it fits five bits, and the rest of the word is kept. */
  lemma PhaseKept(w: bv32, v: bv32)
    requires v <= 0x1F
    ensures PhaseIn(PutPhase(w, v)) == v
    ensures ResultIn(PutPhase(w, v)) == ResultIn(w) && ClosingIn(PutPhase(w, v)) == ClosingIn(w)
    ensures FlagsIn(PutPhase(w, v)) == FlagsIn(w)
  {}

  lemma ResultKept(w: bv32, v: bv32)
    requires v <= 0x3
    ensures ResultIn(PutResult(w, v)) == v
    ensures PhaseIn(PutResult(w, v)) == PhaseIn(w) && ClosingIn(PutResult(w, v)) == ClosingIn(w)
    ensures FlagsIn(PutResult(w, v)) == FlagsIn(w)
  {}

  lemma ClosingKept(w: bv32, v: bv32)
    requires v <= 0x3
    ensures ClosingIn(PutClosing(w, v)) == v
    ensures PhaseIn(PutClosing(w, v)) == PhaseIn(w) && ResultIn(PutClosing(w, v)) == ResultIn(w)
    ensures FlagsIn(PutClosing(w, v)) == FlagsIn(w)
  {}

  // The word as a status.

  /** The 23 phases in the order they are numbered. */
  function PhaseCode(p: Phase): bv32 {
    match p
    case Idle => 0
    case Starting => 1
    case Scanning => 2
    case StoppingForConnect => 3
    case Connecting => 4
    case DiscoverService => 5
    case DiscoverCharacteristic => 6
    case EnableNotifications => 7
    case WriteHello => 8
    case WaitHelloAck => 9
    case WriteFileStart => 10
    case WaitFileReady => 11
    case WriteFileData => 12
    case WriteFileEnd => 13
    case WaitFileReceived => 14
    case WriteReplyRequest => 15
    case WaitReplyStart => 16
    case WriteReplyNext => 17
    case WaitReplyPiece => 18
    case WriteComplete => 19
    case WaitCompleteAck => 20
    case StoppingScan => 21
    case Closing => 22
  }

  function PhaseAt(v: bv32): Phase {
    if v == 0 then Idle
    else if v == 1 then Starting
    else if v == 2 then Scanning
    else if v == 3 then StoppingForConnect
    else if v == 4 then Connecting
    else if v == 5 then DiscoverService
    else if v == 6 then DiscoverCharacteristic
    else if v == 7 then EnableNotifications
    else if v == 8 then WriteHello
    else if v == 9 then WaitHelloAck
    else if v == 10 then WriteFileStart
    else if v == 11 then WaitFileReady
    else if v == 12 then WriteFileData
    else if v == 13 then WriteFileEnd
    else if v == 14 then WaitFileReceived
    else if v == 15 then WriteReplyRequest
    else if v == 16 then WaitReplyStart
    else if v == 17 then WriteReplyNext
    else if v == 18 then WaitReplyPiece
    else if v == 19 then WriteComplete
    else if v == 20 then WaitCompleteAck
    else if v == 21 then StoppingScan
    else Closing
  }

  function ResultCode(r: Result): bv32 {
    match r
    case NotClose => 0
    case Retry => 1
    case Complete => 2
    case Fatal => 3
  }

  function ResultAt(v: bv32): Result {
    if v == 0 then NotClose else if v == 1 then Retry else if v == 2 then Complete else Fatal
  }

  function Bit(on: bool, mask: bv32): bv32 {
    if on then mask else 0
  }

  function On(w: bv32, mask: bv32): bool {
    w & mask != 0
  }

  /** The flags; two of them belong to start-up and are no part of an attempt's status. */
  function FlagBits(s: Status, ready: bool, startupFailed: bool): bv32 {
    Bit(ready, 0x200)
    | Bit(s.running, 0x400)
    | Bit(s.abort, 0x800)
    | Bit(s.closeConfirmed, 0x1000)
    | Bit(s.scanConfirmed, 0x2000)
    | Bit(s.verified, 0x4000)
    | Bit(s.listening, 0x8000)
    | Bit(s.serviceFound, 0x10000)
    | Bit(s.characteristicFound, 0x20000)
    | Bit(startupFailed, 0x40000)
    | Bit(s.reconnect, 0x80000)
  }

  function Join(p: bv32, r: bv32, c: bv32, f: bv32): bv32 {
    p | (r << 5) | (c << 7) | f
  }

  function Encode(s: Status, ready: bool, startupFailed: bool): bv32 {
    Join(PhaseCode(s.phase), ResultCode(s.result), ResultCode(s.closing), FlagBits(s, ready, startupFailed))
  }

  function Decode(w: bv32): Status {
    Status(PhaseAt(PhaseIn(w)), ResultAt(ResultIn(w)), ResultAt(ClosingIn(w)),
           On(w, 0x400), On(w, 0x800), On(w, 0x1000), On(w, 0x2000), On(w, 0x4000), On(w, 0x8000),
           On(w, 0x1_0000), On(w, 0x2_0000), On(w, 0x8_0000))
  }

  lemma PhaseCoded(p: Phase)
    ensures PhaseCode(p) <= 22 && PhaseAt(PhaseCode(p)) == p
  {}

  lemma ResultCoded(r: Result)
    ensures ResultCode(r) <= 3 && ResultAt(ResultCode(r)) == r
  {}

  lemma FlagsAbove(s: Status, ready: bool, startupFailed: bool)
    ensures FlagBits(s, ready, startupFailed) & 0x1FF == 0
  {}

  lemma FlagsRead(s: Status, ready: bool, startupFailed: bool)
    ensures var f := FlagBits(s, ready, startupFailed);
      && On(f, 0x200) == ready && On(f, 0x4_0000) == startupFailed
      && On(f, 0x400) == s.running && On(f, 0x800) == s.abort && On(f, 0x1000) == s.closeConfirmed
      && On(f, 0x2000) == s.scanConfirmed && On(f, 0x4000) == s.verified && On(f, 0x8000) == s.listening
      && On(f, 0x1_0000) == s.serviceFound && On(f, 0x2_0000) == s.characteristicFound && On(f, 0x8_0000) == s.reconnect
  {}

  lemma JoinPhase(p: bv32, r: bv32, c: bv32, f: bv32)
    requires p <= 0x1F && r <= 3 && c <= 3 && f & 0x1FF == 0
    ensures PhaseIn(Join(p, r, c, f)) == p
  {}

  lemma JoinResult(p: bv32, r: bv32, c: bv32, f: bv32)
    requires p <= 0x1F && r <= 3 && c <= 3 && f & 0x1FF == 0
    ensures ResultIn(Join(p, r, c, f)) == r
  {}

  lemma JoinClosing(p: bv32, r: bv32, c: bv32, f: bv32)
    requires p <= 0x1F && r <= 3 && c <= 3 && f & 0x1FF == 0
    ensures ClosingIn(Join(p, r, c, f)) == c
  {}

  lemma JoinFlags(p: bv32, r: bv32, c: bv32, f: bv32)
    requires p <= 0x1F && r <= 3 && c <= 3 && f & 0x1FF == 0
    ensures FlagsIn(Join(p, r, c, f)) == FlagsIn(f)
  {}

  /** A flag only depends on the bits from 9 on. */
  lemma FlagAbove(w: bv32, mask: bv32)
    requires mask & 0xFFFF_FE00 == mask
    ensures On(w, mask) == On(FlagsIn(w), mask)
  {
    AndRegrouped(w, 0xFFFF_FE00, mask);
  }

  lemma AndRegrouped(a: bv32, b: bv32, c: bv32)
    ensures a & (c & b) == (a & b) & c
  {}

  lemma FlagsAlone(w: bv32)
    ensures On(w, 0x200) == On(FlagsIn(w), 0x200)
    ensures On(w, 0x400) == On(FlagsIn(w), 0x400)
    ensures On(w, 0x800) == On(FlagsIn(w), 0x800)
    ensures On(w, 0x1000) == On(FlagsIn(w), 0x1000)
    ensures On(w, 0x2000) == On(FlagsIn(w), 0x2000)
    ensures On(w, 0x4000) == On(FlagsIn(w), 0x4000)
    ensures On(w, 0x8000) == On(FlagsIn(w), 0x8000)
    ensures On(w, 0x1_0000) == On(FlagsIn(w), 0x1_0000)
    ensures On(w, 0x2_0000) == On(FlagsIn(w), 0x2_0000)
    ensures On(w, 0x4_0000) == On(FlagsIn(w), 0x4_0000)
    ensures On(w, 0x8_0000) == On(FlagsIn(w), 0x8_0000)
  {
    hide On, FlagsIn;
    FlagAbove(w, 0x200);
    FlagAbove(w, 0x400);
    FlagAbove(w, 0x800);
    FlagAbove(w, 0x1000);
    FlagAbove(w, 0x2000);
    FlagAbove(w, 0x4000);
    FlagAbove(w, 0x8000);
    FlagAbove(w, 0x1_0000);
    FlagAbove(w, 0x2_0000);
    FlagAbove(w, 0x4_0000);
    FlagAbove(w, 0x8_0000);
  }

  lemma SameFlags(v: bv32, w: bv32)
    requires FlagsIn(v) == FlagsIn(w)
    ensures On(v, 0x200) == On(w, 0x200)
    ensures On(v, 0x400) == On(w, 0x400)
    ensures On(v, 0x800) == On(w, 0x800)
    ensures On(v, 0x1000) == On(w, 0x1000)
    ensures On(v, 0x2000) == On(w, 0x2000)
    ensures On(v, 0x4000) == On(w, 0x4000)
    ensures On(v, 0x8000) == On(w, 0x8000)
    ensures On(v, 0x1_0000) == On(w, 0x1_0000)
    ensures On(v, 0x2_0000) == On(w, 0x2_0000)
    ensures On(v, 0x4_0000) == On(w, 0x4_0000)
    ensures On(v, 0x8_0000) == On(w, 0x8_0000)
  {
    hide On, FlagsIn;
    FlagsAlone(v);
    FlagsAlone(w);
  }

  /** A status written into the word is read back whole, whatever the two other flags are. */
  lemma StatusReadBack(s: Status, ready: bool, startupFailed: bool)
    ensures var w := Encode(s, ready, startupFailed);
      Decode(w) == s && On(w, 0x200) == ready && On(w, 0x4_0000) == startupFailed
  {
    var f, w := FlagBits(s, ready, startupFailed), Encode(s, ready, startupFailed);
    PhaseCoded(s.phase);
    ResultCoded(s.result);
    ResultCoded(s.closing);
    FlagsAbove(s, ready, startupFailed);
    FlagsRead(s, ready, startupFailed);
    var p, r, c := PhaseCode(s.phase), ResultCode(s.result), ResultCode(s.closing);
    JoinPhase(p, r, c, f);
    JoinResult(p, r, c, f);
    JoinClosing(p, r, c, f);
    JoinFlags(p, r, c, f);
    hide Join, FlagBits, PhaseCode, ResultCode, On, PhaseIn, ResultIn, ClosingIn, FlagsIn, PhaseAt, ResultAt;
    SameFlags(w, f);
  }

  lemma DecodeFlags(v: bv32, w: bv32)
    requires FlagsIn(v) == FlagsIn(w)
    ensures Decode(v) == Decode(w).(phase := PhaseAt(PhaseIn(v)), result := ResultAt(ResultIn(v)), closing := ResultAt(ClosingIn(v)))
  {
    SameFlags(v, w);
    hide On, PhaseIn, ResultIn, ClosingIn, PhaseAt, ResultAt;
  }

  /** `set_state` and `result_put` on the word are the updates of the status. */
  lemma PutsAreUpdates(w: bv32, phase: Phase, result: Result)
    ensures Decode(PutPhase(w, PhaseCode(phase))) == Decode(w).(phase := phase)
    ensures Decode(PutResult(w, ResultCode(result))) == Decode(w).(result := result)
    ensures Decode(PutClosing(w, ResultCode(result))) == Decode(w).(closing := result)
  {
    PhaseCoded(phase);
    ResultCoded(result);
    PhaseKept(w, PhaseCode(phase));
    ResultKept(w, ResultCode(result));
    ClosingKept(w, ResultCode(result));
    hide Decode, PhaseIn, ResultIn, ClosingIn, PutPhase, PutResult, PutClosing, PhaseAt, ResultAt, PhaseCode, ResultCode;
    DecodeFlags(PutPhase(w, PhaseCode(phase)), w);
    DecodeFlags(PutResult(w, ResultCode(result)), w);
    DecodeFlags(PutClosing(w, ResultCode(result)), w);
    DecodeParts(w);
  }

  lemma DecodeParts(w: bv32)
    ensures var s := Decode(w);
      s.phase == PhaseAt(PhaseIn(w)) && s.result == ResultAt(ResultIn(w)) && s.closing == ResultAt(ClosingIn(w))
  {}

  // Single flags.

  datatype Flag = Running | Abort | CloseConfirmed | ScanConfirmed | Verified | Listening | ServiceFound | CharacteristicFound | Reconnect

  function Mask(f: Flag): bv32 {
    match f
    case Running => 0x400
    case Abort => 0x800
    case CloseConfirmed => 0x1000
    case ScanConfirmed => 0x2000
    case Verified => 0x4000
    case Listening => 0x8000
    case ServiceFound => 0x1_0000
    case CharacteristicFound => 0x2_0000
    case Reconnect => 0x8_0000
  }

  /** `flag_assign`. */
  function Assign(w: bv32, mask: bv32, on: bool): bv32 {
    if on then w | mask else w & !mask
  }

  function WithFlag(s: Status, f: Flag, on: bool): Status {
    Status(s.phase, s.result, s.closing,
           if f.Running? then on else s.running,
           if f.Abort? then on else s.abort,
           if f.CloseConfirmed? then on else s.closeConfirmed,
           if f.ScanConfirmed? then on else s.scanConfirmed,
           if f.Verified? then on else s.verified,
           if f.Listening? then on else s.listening,
           if f.ServiceFound? then on else s.serviceFound,
           if f.CharacteristicFound? then on else s.characteristicFound,
           if f.Reconnect? then on else s.reconnect)
  }

  lemma OrThenAnd(a: bv32, b: bv32, c: bv32)
    ensures (a | b) & c == (a & c) | (b & c)
  {}

  lemma AndNotThenAnd(a: bv32, b: bv32, c: bv32)
    ensures (a & !b) & c == (a & c) & !(b & c)
  {}

  lemma Nothing(a: bv32)
    ensures a | 0 == a && a & !0 == a
  {}

  lemma Whole(a: bv32, b: bv32)
    ensures (a & b) | (b & b) == b && (a & b) & !(b & b) == 0 && b & b == b
  {}

  predicate Disjoint(a: bv32, b: bv32) {
    a & b == 0
  }

  lemma SetBits(w: bv32, mask: bv32, other: bv32)
    ensures Disjoint(mask, other) ==> (w | mask) & other == w & other
    ensures (w | mask) & mask == mask
  {
    OrThenAnd(w, mask, other);
    OrThenAnd(w, mask, mask);
    Nothing(w & other);
    Whole(w, mask);
  }

  lemma ClearBits(w: bv32, mask: bv32, other: bv32)
    ensures Disjoint(mask, other) ==> (w & !mask) & other == w & other
    ensures (w & !mask) & mask == 0
  {
    AndNotThenAnd(w, mask, other);
    AndNotThenAnd(w, mask, mask);
    Nothing(w & other);
    Whole(w, mask);
  }

  /** What an assigned flag does to any other bits: nothing to those apart from it, everything to
      itself. */
  lemma Assigned(w: bv32, mask: bv32, other: bv32, on: bool)
    ensures Disjoint(mask, other) ==> Assign(w, mask, on) & other == w & other
    ensures Assign(w, mask, on) & mask == if on then mask else 0
  {
    hide Disjoint;
    if on {
      SetBits(w, mask, other);
    } else {
      ClearBits(w, mask, other);
    }
  }

  lemma AssignedFlags(w: bv32, mask: bv32, other: bv32, on: bool)
    ensures Disjoint(mask, other) ==> On(Assign(w, mask, on), other) == On(w, other)
    ensures !IsNone(mask) ==> On(Assign(w, mask, on), mask) == on
  {
    Assigned(w, mask, other, on);
    hide Assign, Disjoint;
  }

  predicate IsNone(mask: bv32) {
    mask == 0
  }

  lemma AssignedFields(w: bv32, mask: bv32, on: bool)
    ensures Disjoint(mask, 0x1FF) ==>
      var v := Assign(w, mask, on);
      PhaseIn(v) == PhaseIn(w) && ResultIn(v) == ResultIn(w) && ClosingIn(v) == ClosingIn(w)
  {
    var v := Assign(w, mask, on);
    Assigned(w, mask, 0x1FF, on);
    hide Assign, Disjoint;
    if Disjoint(mask, 0x1FF) { FieldsBelow(v, w); }
  }

  lemma FieldsBelow(v: bv32, w: bv32)
    requires v & 0x1FF == w & 0x1FF
    ensures PhaseIn(v) == PhaseIn(w) && ResultIn(v) == ResultIn(w) && ClosingIn(v) == ClosingIn(w)
  {
    FieldsOf(v);
    FieldsOf(w);
  }

  lemma FieldsOf(w: bv32)
    ensures PhaseIn(w) == (w & 0x1FF) & 0x1F && ResultIn(w) == ((w & 0x1FF) >> 5) & 0x3
    ensures ClosingIn(w) == ((w & 0x1FF) >> 7) & 0x3
  {}

  lemma Apart(f: Flag, g: Flag)
    ensures !IsNone(Mask(f)) && Disjoint(Mask(f), 0x1FF) && (f != g ==> Disjoint(Mask(f), Mask(g)))
  {}

  lemma FlagAssigned(w: bv32, f: Flag, g: Flag, on: bool)
    ensures On(Assign(w, Mask(f), on), Mask(g)) == if f == g then on else On(w, Mask(g))
  {
    hide Mask, Assign, On, Disjoint, IsNone;
    Apart(f, g);
    AssignedFlags(w, Mask(f), Mask(g), on);
  }

  /** One flag differs, or none. */
  lemma OneFlag(s: Status, t: Status, f: Flag, on: bool)
    requires t.phase == s.phase && t.result == s.result && t.closing == s.closing
    requires forall g: Flag :: FlagOf(t, g) == if f == g then on else FlagOf(s, g)
    ensures t == WithFlag(s, f, on)
  {
    forall g: Flag ensures FlagOf(t, g) == FlagOf(WithFlag(s, f, on), g) {
      FlagWith(s, f, g, on);
    }
    hide WithFlag;
    SameStatus(t, WithFlag(s, f, on)) by { WithFlagKeeps(s, f, on); }
  }

  lemma WithFlagKeeps(s: Status, f: Flag, on: bool)
    ensures var t := WithFlag(s, f, on);
      t.phase == s.phase && t.result == s.result && t.closing == s.closing
  {}

  function FlagOf(s: Status, f: Flag): bool {
    match f
    case Running => s.running
    case Abort => s.abort
    case CloseConfirmed => s.closeConfirmed
    case ScanConfirmed => s.scanConfirmed
    case Verified => s.verified
    case Listening => s.listening
    case ServiceFound => s.serviceFound
    case CharacteristicFound => s.characteristicFound
    case Reconnect => s.reconnect
  }

  lemma FlagWith(s: Status, f: Flag, g: Flag, on: bool)
    ensures FlagOf(WithFlag(s, f, on), g) == if f == g then on else FlagOf(s, g)
  {}

  lemma SameStatus(s: Status, t: Status)
    requires t.phase == s.phase && t.result == s.result && t.closing == s.closing
    requires forall g: Flag :: FlagOf(t, g) == FlagOf(s, g)
    ensures s == t
  {
    assert FlagOf(t, Running) == FlagOf(s, Running);
    assert FlagOf(t, Flag.Abort) == FlagOf(s, Flag.Abort);
    assert FlagOf(t, CloseConfirmed) == FlagOf(s, CloseConfirmed);
    assert FlagOf(t, ScanConfirmed) == FlagOf(s, ScanConfirmed);
    assert FlagOf(t, Verified) == FlagOf(s, Verified);
    assert FlagOf(t, Listening) == FlagOf(s, Listening);
    assert FlagOf(t, Flag.ServiceFound) == FlagOf(s, Flag.ServiceFound);
    assert FlagOf(t, Flag.CharacteristicFound) == FlagOf(s, Flag.CharacteristicFound);
    assert FlagOf(t, Reconnect) == FlagOf(s, Reconnect);
  }

  lemma FlagDecoded(w: bv32, g: Flag)
    ensures FlagOf(Decode(w), g) == On(w, Mask(g))
  {
    hide On, PhaseIn, ResultIn, ClosingIn, PhaseAt, ResultAt;
  }

  /** `flag_assign` on the word is the update of one flag of the status. */
  lemma FlagsAreUpdates(w: bv32, f: Flag, on: bool)
    ensures Decode(Assign(w, Mask(f), on)) == WithFlag(Decode(w), f, on)
  {
    hide Decode, On, Mask, Assign, PhaseIn, ResultIn, ClosingIn, PhaseAt, ResultAt, Disjoint, IsNone, WithFlag, FlagOf;
    var v := Assign(w, Mask(f), on);
    Apart(f, f);
    AssignedFields(w, Mask(f), on);
    forall g: Flag ensures FlagOf(Decode(v), g) == if f == g then on else FlagOf(Decode(w), g) {
      FlagAssigned(w, f, g, on);
      FlagDecoded(v, g);
      FlagDecoded(w, g);
    }
    DecodeParts(v);
    DecodeParts(w);
    OneFlag(Decode(w), Decode(v), f, on);
  }
}
