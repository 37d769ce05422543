/** The tolerant decoder of packet 13 and the layout it undoes. */
module LoadoutPacket {
  import opened Wrappers

  newtype byte = n: int | 0 <= n < 256

  const MAX_COUNT := 64

  /** Prefab names stay raw bytes: decoding them to text is not part of the layout. */
  datatype SetClassLoadout = SetClassLoadout(
    playerId: byte, classId: byte, instant: byte,
    loadout: seq<byte>, prefabs: seq<seq<byte>>, ugcTools: seq<byte>)

  datatype Error =
    | TooShort
    | InvalidLoadoutCount
    | MissingPrefabCount
    | InvalidPrefabCount
    | UnterminatedPrefab
    | InvalidUgcCount

  ghost predicate NulFree(name: seq<byte>) {
    forall i :: 0 <= i < |name| ==> name[i] != 0
  }

  ghost predicate AllNulFree(names: seq<seq<byte>>) {
    forall i :: 0 <= i < |names| ==> NulFree(names[i])
  }

  ghost predicate WellFormed(m: SetClassLoadout) {
    |m.loadout| <= MAX_COUNT && |m.prefabs| <= MAX_COUNT && |m.ugcTools| <= MAX_COUNT && AllNulFree(m.prefabs)
  }

  function PrintPrefabs(names: seq<seq<byte>>): seq<byte> {
    if names == [] then [] else names[0] + [0 as byte] + PrintPrefabs(names[1..])
  }

  function PrintHeader(m: SetClassLoadout): seq<byte>
    requires |m.loadout| <= MAX_COUNT && |m.prefabs| <= MAX_COUNT
  {
    [m.playerId, m.classId, m.instant, |m.loadout| as byte] + m.loadout + [|m.prefabs| as byte]
  }

  function PrintUgc(tools: seq<byte>): seq<byte>
    requires |tools| <= MAX_COUNT
  {
    [|tools| as byte] + tools
  }

  /** The complete layout. */
  function Print(m: SetClassLoadout): seq<byte>
    requires |m.loadout| <= MAX_COUNT && |m.prefabs| <= MAX_COUNT && |m.ugcTools| <= MAX_COUNT
  {
    PrintHeader(m) + PrintPrefabs(m.prefabs) + PrintUgc(m.ugcTools)
  }

  /** `payload` is the layout of `m`, or that layout without the zero that ends an empty UGC list. */
  ghost predicate Encodes(m: SetClassLoadout, payload: seq<byte>) {
    WellFormed(m) && (payload == Print(m) || (m.ugcTools == [] && payload + [0 as byte] == Print(m)))
  }

  lemma {:induction false} PrintPrefabsAppend(names: seq<seq<byte>>, name: seq<byte>)
    ensures PrintPrefabs(names + [name]) == PrintPrefabs(names) + (name + [0 as byte])
  {
    if names == [] {
      assert names + [name] == [name];
      assert PrintPrefabs([name][1..]) == [];
    } else {
      assert (names + [name])[1..] == names[1..] + [name];
      PrintPrefabsAppend(names[1..], name);
    }
  }

  /** A NUL-free name followed by a NUL can be read off in one way only. */
  lemma SplitsAtFirstNul(a: seq<byte>, b: seq<byte>, x: seq<byte>, y: seq<byte>)
    requires NulFree(a) && NulFree(b)
    requires a + [0 as byte] + x == b + [0 as byte] + y
    ensures a == b && x == y
  {
    var left, right := a + [0 as byte] + x, b + [0 as byte] + y;
    assert left[|a|] == 0 && right[|b|] == 0;
    assert forall i :: 0 <= i < |a| ==> left[i] == a[i];
    assert forall i :: 0 <= i < |b| ==> right[i] == b[i];
    assert |a| == |b|;
    assert a == left[..|a|] == right[..|b|] == b;
    assert x == left[|a| + 1..] == right[|b| + 1..] == y;
  }

  lemma PrintPrefabsCons(names: seq<seq<byte>>, tail: seq<byte>)
    requires names != []
    ensures PrintPrefabs(names) + tail == names[0] + [0 as byte] + (PrintPrefabs(names[1..]) + tail)
  {}

  /** Whatever names have been read are the first names of any layout the bytes can belong to. */
  lemma {:induction false} PrefabsAgree(read: seq<seq<byte>>, rest: seq<byte>, names: seq<seq<byte>>, tail: seq<byte>)
    requires AllNulFree(read) && AllNulFree(names) && |read| <= |names|
    requires PrintPrefabs(read) + rest == PrintPrefabs(names) + tail
    ensures read == names[..|read|] && rest == PrintPrefabs(names[|read|..]) + tail
  {
    if read == [] {
      assert names[0..] == names;
    } else {
      PrintPrefabsCons(read, rest);
      PrintPrefabsCons(names, tail);
      SplitsAtFirstNul(read[0], names[0], PrintPrefabs(read[1..]) + rest, PrintPrefabs(names[1..]) + tail);
      PrefabsAgree(read[1..], rest, names[1..], tail);
      PeelFirst(read, names);
    }
  }

  lemma PeelFirst<T>(a: seq<T>, b: seq<T>)
    requires 0 < |a| <= |b| && a[0] == b[0] && a[1..] == b[1..][..|a| - 1]
    ensures a == b[..|a|] && b[1..][|a| - 1..] == b[|a|..]
  {
    assert a == [a[0]] + a[1..];
  }

  /** The fixed part of a layout determines its fields. */
  lemma HeaderAgrees(m: SetClassLoadout, n: SetClassLoadout, x: seq<byte>, y: seq<byte>)
    requires |m.loadout| <= MAX_COUNT && |m.prefabs| <= MAX_COUNT
    requires |n.loadout| <= MAX_COUNT && |n.prefabs| <= MAX_COUNT
    requires PrintHeader(m) + x == PrintHeader(n) + y
    ensures m.playerId == n.playerId && m.classId == n.classId && m.instant == n.instant
    ensures m.loadout == n.loadout && |m.prefabs| == |n.prefabs| && x == y
  {
    var p, q := PrintHeader(m) + x, PrintHeader(n) + y;
    assert p[0] == m.playerId && p[1] == m.classId && p[2] == m.instant && p[3] == |m.loadout| as byte;
    assert q[0] == n.playerId && q[1] == n.classId && q[2] == n.instant && q[3] == |n.loadout| as byte;
    var k := |m.loadout|;
    assert p[4..4 + k] == m.loadout && q[4..4 + k] == n.loadout;
    assert p[4 + k] == |m.prefabs| as byte && q[4 + k] == |n.prefabs| as byte;
    assert p[5 + k..] == x && q[5 + k..] == y;
  }

  lemma FullLayoutIsInjective(m: SetClassLoadout, n: SetClassLoadout)
    requires WellFormed(m) && WellFormed(n) && Print(m) == Print(n)
    ensures m == n
  {
    var x := PrintPrefabs(m.prefabs) + PrintUgc(m.ugcTools);
    var y := PrintPrefabs(n.prefabs) + PrintUgc(n.ugcTools);
    assert Print(m) == PrintHeader(m) + x && Print(n) == PrintHeader(n) + y;
    HeaderAgrees(m, n, x, y);
    TailAgrees(m, n);
  }

  /** A complete layout is never another one with its last byte missing. */
  lemma ShortLayoutIsNotFull(m: SetClassLoadout, n: SetClassLoadout)
    requires WellFormed(m) && WellFormed(n) && n.ugcTools == []
    ensures Print(m) + [0 as byte] != Print(n)
  {
    if Print(m) + [0 as byte] == Print(n) {
      var x := PrintPrefabs(m.prefabs) + (PrintUgc(m.ugcTools) + [0 as byte]);
      var y := PrintPrefabs(n.prefabs) + PrintUgc(n.ugcTools);
      assert Print(n) == PrintHeader(m) + x && Print(n) == PrintHeader(n) + y;
      HeaderAgrees(m, n, x, y);
      PrefabsAgree(m.prefabs, PrintUgc(m.ugcTools) + [0 as byte], n.prefabs, PrintUgc(n.ugcTools));
    }
  }

  /** Distinct selections have distinct layouts, even with the optional byte left off. */
  lemma LayoutIsInjective(m: SetClassLoadout, n: SetClassLoadout, payload: seq<byte>)
    requires Encodes(m, payload) && Encodes(n, payload)
    ensures m == n
  {
    if payload == Print(m) && payload != Print(n) {
      ShortLayoutIsNotFull(m, n);
    } else if payload != Print(m) && payload == Print(n) {
      ShortLayoutIsNotFull(n, m);
    } else {
      FullLayoutIsInjective(m, n);
    }
  }

  lemma TailAgrees(m: SetClassLoadout, n: SetClassLoadout)
    requires WellFormed(m) && WellFormed(n) && |m.prefabs| == |n.prefabs|
    requires PrintPrefabs(m.prefabs) + PrintUgc(m.ugcTools) == PrintPrefabs(n.prefabs) + PrintUgc(n.ugcTools)
    ensures m.prefabs == n.prefabs && m.ugcTools == n.ugcTools
  {
    PrefabsAgree(m.prefabs, PrintUgc(m.ugcTools), n.prefabs, PrintUgc(n.ugcTools));
    assert n.prefabs[|m.prefabs|..] == [];
    assert PrintUgc(m.ugcTools)[1..] == m.ugcTools && PrintUgc(n.ugcTools)[1..] == n.ugcTools;
  }

  // ----- The decoder -----

  /** What the bytes stand for, if anything. */
  ghost function Meaning(payload: seq<byte>): Option<SetClassLoadout> {
    if m :| Encodes(m, payload) then Some(m) else None
  }

  function FirstNul(payload: seq<byte>, from: nat): (k: nat)
    requires from <= |payload|
    ensures from <= k <= |payload|
    ensures forall i :: from <= i < k ==> payload[i] != 0
    ensures k < |payload| ==> payload[k] == 0
    decreases |payload| - from
  {
    if from == |payload| || payload[from] == 0 then from else FirstNul(payload, from + 1)
  }

  /** The bytes seen so far: header and names, with `rest` still unread. */
  ghost predicate ReadSoFar(payload: seq<byte>, h: SetClassLoadout, read: seq<seq<byte>>, rest: seq<byte>) {
    |h.loadout| <= MAX_COUNT && |h.prefabs| <= MAX_COUNT && |read| <= |h.prefabs| && AllNulFree(read) &&
    payload == PrintHeader(h) + PrintPrefabs(read) + rest
  }

  /** Whatever the payload may mean, it agrees with what has been read; `rest` is what it prints next. */
  lemma MeaningAgrees(payload: seq<byte>, h: SetClassLoadout, read: seq<seq<byte>>, rest: seq<byte>, m: SetClassLoadout)
    requires ReadSoFar(payload, h, read, rest) && Encodes(m, payload)
    ensures m.playerId == h.playerId && m.classId == h.classId && m.instant == h.instant && m.loadout == h.loadout
    ensures |m.prefabs| == |h.prefabs| && read == m.prefabs[..|read|]
    ensures var next := PrintPrefabs(m.prefabs[|read|..]) + PrintUgc(m.ugcTools);
            if payload == Print(m) then rest == next else m.ugcTools == [] && rest + [0 as byte] == next
  {
    var after := PrintPrefabs(m.prefabs) + PrintUgc(m.ugcTools);
    assert Print(m) == PrintHeader(m) + after;
    var unread := if payload == Print(m) then rest else rest + [0 as byte];
    assert PrintHeader(h) + (PrintPrefabs(read) + unread) == Print(m);
    HeaderAgrees(h, m, PrintPrefabs(read) + unread, after);
    PrefabsAgree(read, unread, m.prefabs, PrintUgc(m.ugcTools));
  }

  lemma HeaderBytes(m: SetClassLoadout, payload: seq<byte>)
    requires Encodes(m, payload)
    ensures |payload| >= 5 + |m.loadout|
    ensures payload[3] as int == |m.loadout| && payload[4 + |m.loadout|] as int == |m.prefabs|
  {
    var whole := Print(m);
    assert whole[3] == |m.loadout| as byte && whole[4 + |m.loadout|] == |m.prefabs| as byte;
    assert forall i :: 0 <= i < |payload| ==> payload[i] == whole[i];
  }

  lemma NeedsANul(payload: seq<byte>, h: SetClassLoadout, read: seq<seq<byte>>, rest: seq<byte>, m: SetClassLoadout)
    requires ReadSoFar(payload, h, read, rest) && Encodes(m, payload) && |read| < |h.prefabs|
    ensures !NulFree(rest)
  {
    MeaningAgrees(payload, h, read, rest, m);
    var left := m.prefabs[|read|..];
    PrintPrefabsCons(left, PrintUgc(m.ugcTools));
    var unread := if payload == Print(m) then rest else rest + [0 as byte];
    assert unread[|left[0]|] == 0;
    assert |left[0]| < |rest|;
    assert rest[|left[0]|] == 0;
  }

  lemma TailIsUgcList(payload: seq<byte>, h: SetClassLoadout, rest: seq<byte>, m: SetClassLoadout)
    requires ReadSoFar(payload, h, h.prefabs, rest) && Encodes(m, payload)
    ensures m == h.(ugcTools := m.ugcTools)
    ensures if rest == [] then m.ugcTools == [] else rest == PrintUgc(m.ugcTools)
  {
    MeaningAgrees(payload, h, h.prefabs, rest, m);
    assert m.prefabs[|h.prefabs|..] == [];
    if payload != Print(m) {
      assert |rest| + 1 == |PrintUgc(m.ugcTools)| == 1;
    }
  }

  predicate IsUgcList(rest: seq<byte>) {
    rest == [] || (rest[0] as int <= MAX_COUNT && |rest| == 1 + rest[0] as int)
  }

  function UgcTools(rest: seq<byte>): seq<byte> {
    if rest == [] then [] else rest[1..]
  }

  /** The unread tail settles whether the payload means anything. */
  lemma TailDecides(payload: seq<byte>, h: SetClassLoadout, rest: seq<byte>)
    requires ReadSoFar(payload, h, h.prefabs, rest)
    ensures if IsUgcList(rest) then Encodes(h.(ugcTools := UgcTools(rest)), payload)
            else forall m :: !Encodes(m, payload)
  {
    if IsUgcList(rest) {
      var m := h.(ugcTools := UgcTools(rest));
      assert PrintHeader(m) == PrintHeader(h);
      if rest == [] {
        assert payload + [0 as byte] == Print(m);
      } else {
        assert rest == PrintUgc(m.ugcTools);
      }
    } else {
      forall m | Encodes(m, payload) ensures false {
        TailIsUgcList(payload, h, rest, m);
      }
    }
  }

  /** The loop over NUL-terminated names. */
  method ReadPrefabs(payload: seq<byte>, start: nat, ghost h: SetClassLoadout, count: nat)
    returns (names: Option<seq<seq<byte>>>, position: nat)
    requires start <= |payload| && |h.prefabs| == count
    requires ReadSoFar(payload, h, [], payload[start..])
    ensures position <= |payload|
    ensures names.Some? ==> |names.value| == count && ReadSoFar(payload, h, names.value, payload[position..])
    ensures names.None? ==> forall m :: !Encodes(m, payload)
  {
    var prefabs: seq<seq<byte>> := [];
    position := start;
    while |prefabs| < count
      invariant |prefabs| <= count && position <= |payload|
      invariant ReadSoFar(payload, h, prefabs, payload[position..])
    {
      var terminator := FirstNul(payload, position);
      if terminator == |payload| {
        forall m | Encodes(m, payload) ensures false {
          NeedsANul(payload, h, prefabs, payload[position..], m);
        }
        return None, position;
      }
      var name := payload[position..terminator];
      PrintPrefabsAppend(prefabs, name);
      assert payload[position..] == name + [0 as byte] + payload[terminator + 1..];
      prefabs := prefabs + [name];
      position := terminator + 1;
    }
    return Some(prefabs), position;
  }

  method DecodeSetClassLoadout(payload: seq<byte>) returns (r: Result<SetClassLoadout, Error>)
    ensures Meaning(payload) == match r case Ok(m) => Some(m) case Err(_) => None
    ensures r == Err(TooShort) <==> |payload| < 4
  {
    forall m | Encodes(m, payload)
      ensures |payload| >= 5 + |m.loadout|
      ensures payload[3] as int == |m.loadout| && payload[4 + |m.loadout|] as int == |m.prefabs|
    {
      HeaderBytes(m, payload);
    }
    if |payload| < 4 {
      return Err(TooShort);
    }
    var playerId, classId, instant, loadoutCount := payload[0], payload[1], payload[2], payload[3] as int;
    var position: nat := 4;
    if loadoutCount > MAX_COUNT || position + loadoutCount > |payload| {
      return Err(InvalidLoadoutCount);
    }
    var loadout := payload[position..position + loadoutCount];
    position := position + loadoutCount;
    if position >= |payload| {
      return Err(MissingPrefabCount);
    }
    var prefabCount := payload[position] as int;
    position := position + 1;
    if prefabCount > MAX_COUNT {
      return Err(InvalidPrefabCount);
    }
    ghost var h := SetClassLoadout(playerId, classId, instant, loadout, seq(prefabCount, _ => []), []);
    assert payload == PrintHeader(h) + [] + payload[position..];
    var prefabs;
    prefabs, position := ReadPrefabs(payload, position, h, prefabCount);
    if prefabs.None? {
      return Err(UnterminatedPrefab);
    }
    ghost var rest := payload[position..];
    h := h.(prefabs := prefabs.value);
    TailDecides(payload, h, rest);
    var ugcCount := 0;
    if position < |payload| {
      ugcCount := payload[position] as int;
      position := position + 1;
    }
    if ugcCount > MAX_COUNT || position + ugcCount != |payload| {
      return Err(InvalidUgcCount);
    }
    var ugcTools := payload[position..position + ugcCount];
    assert ugcTools == UgcTools(rest);
    r := Ok(SetClassLoadout(playerId, classId, instant, loadout, prefabs.value, ugcTools));
    MeaningOfLayout(r.value, payload);
  }

  lemma MeaningOfLayout(m: SetClassLoadout, payload: seq<byte>)
    requires Encodes(m, payload)
    ensures Meaning(payload) == Some(m)
  {
    LayoutIsInjective(m, Meaning(payload).value, payload);
  }

  /** Printing then decoding gives the selection back, with or without the optional empty UGC byte. */
  lemma PrintThenDecode(m: SetClassLoadout)
    requires WellFormed(m)
    ensures Meaning(Print(m)) == Some(m)
    ensures m.ugcTools == [] ==> Meaning(Print(m)[..|Print(m)| - 1]) == Some(m)
  {
    MeaningOfLayout(m, Print(m));
    if m.ugcTools == [] {
      var short := Print(m)[..|Print(m)| - 1];
      assert short + [0 as byte] == Print(m);
      MeaningOfLayout(m, short);
    }
  }

  /** Every accepted payload is the layout of its result, or that layout minus one trailing zero. */
  lemma DecodeThenPrint(payload: seq<byte>)
    requires Meaning(payload).Some?
    ensures var m := Meaning(payload).value;
            WellFormed(m) && (payload == Print(m) || (m.ugcTools == [] && payload + [0 as byte] == Print(m)))
  {}

  /** Nothing else follows the selection: one extra byte makes any complete payload meaningless. */
  lemma NoTrailingBytes(m: SetClassLoadout, extra: byte)
    requires WellFormed(m)
    ensures Meaning(Print(m) + [extra]) == None
  {
    var longer := Print(m) + [extra];
    if n :| Encodes(n, longer) {
      var x := PrintPrefabs(m.prefabs) + (PrintUgc(m.ugcTools) + [extra]);
      assert longer == PrintHeader(m) + x;
      var y := PrintPrefabs(n.prefabs) + PrintUgc(n.ugcTools);
      assert Print(n) == PrintHeader(n) + y;
      var unread := if longer == Print(n) then [extra] else [extra, 0 as byte];
      var z := PrintPrefabs(m.prefabs) + (PrintUgc(m.ugcTools) + unread);
      assert Print(n) == PrintHeader(m) + z;
      HeaderAgrees(m, n, z, y);
      PrefabsAgree(m.prefabs, PrintUgc(m.ugcTools) + unread, n.prefabs, PrintUgc(n.ugcTools));
      assert n.prefabs[|m.prefabs|..] == [];
      assert (PrintUgc(m.ugcTools) + unread)[0] == PrintUgc(n.ugcTools)[0];
    }
  }
}

/**
 * The sign-and-magnitude orientation field, the formula documented for its encoder, and the repository's own
 * writer.
 */
module OrientationField {

  /** The 16-bit field read as an angle component. */
  function FromFixedOrientation(value: int): real
    requires 0 <= value < 0x10000
  {
    var sign := if value >= 0x8000 then -1.0 else 1.0;
    var magnitude := value % 0x8000;
    if magnitude >= 16384 then sign * ((magnitude - 8192) as real / 8192.0)
    else sign * (magnitude as real / 8192.0)
  }

  function Magnitude(v: real): real {
    if v < 0.0 then -v else v
  }

  /** `n` is a nearest integer to `r`, whichever way ties go. */
  predicate Nearest(n: int, r: real) {
    Magnitude(r - n as real) <= 0.5
  }

  /** The formula documented beside the decoder, for any tie rule: two scales that meet at |v| = 1. */
  predicate EncodesAs(v: real, value: int) {
    0 <= value < 0x10000 &&
    (value >= 0x8000 <==> v < 0.0) &&
    if Magnitude(v) < 1.0 then Nearest(value % 0x8000, Magnitude(v) * 8192.0)
    else Nearest(value % 0x8000, 16384.0 + (Magnitude(v) - 1.0) * 8192.0)
  }

  /** Decoding what the documented formula gives is off by at most half a step, on both scales. */
  lemma DecodeIsWithinHalfAStep(v: real, value: int)
    requires EncodesAs(v, value)
    ensures Magnitude(FromFixedOrientation(value) - v) <= 1.0 / 16384.0
  {
    var n := value % 0x8000;
    assert if value >= 0x8000 then n == value - 0x8000 else n == value;
  }

  /**
   * The gap [8192, 16384) is documented as never emitted. The documented formula gives one magnitude
   * of it: 8192, exactly for the components within half a step below 1; it decodes to 1 like 16384 does.
   */
  lemma GapIsEmittedOnlyNextToOne(v: real, value: int)
    requires EncodesAs(v, value)
    ensures 8192 <= value % 0x8000 < 16384 ==>
              value % 0x8000 == 8192 && 1.0 - 1.0 / 16384.0 <= Magnitude(v) < 1.0 &&
              Magnitude(FromFixedOrientation(value)) == 1.0
    ensures 1.0 - 1.0 / 16384.0 < Magnitude(v) < 1.0 ==> value % 0x8000 == 8192
  {}

  lemma GapIsEmitted()
    ensures EncodesAs(0.99999, 8192)
  {}

  // ----- The writer: one scale, saturating, in two's complement -----

  /** The nearest integer, halves away from zero. */
  function Round(r: real): (n: int)
    ensures Nearest(n, r)
    ensures Magnitude(r - n as real) == 0.5 ==> Magnitude(n as real) > Magnitude(r)
  {
    if r < 0.0 then -(0.5 - r).Floor else (r + 0.5).Floor
  }

  function ToFixedOrientation(v: real): int {
    var limit := 16383.0 / 8192.0;
    Round(8192.0 * (if v > limit then limit else if v < -limit then -limit else v))
  }

  /** Both ends of the range have a word of their own; everything else is the low 16 bits. */
  function Word(n: int): int {
    if n == 16383 then 0x5FF7
    else if n == -16383 then 0xDFF7
    else n % 0x10000
  }

  /** The word written for a component. */
  function Written(v: real): (value: int)
    ensures 0 <= value < 0x10000
  {
    Word(ToFixedOrientation(v))
  }

  /** What the decoder makes of each number the writer can form. */
  lemma WordDecodes(n: int)
    requires -16383 <= n <= 16383
    ensures 0 <= Word(n) < 0x10000
    ensures FromFixedOrientation(Word(n)) * 8192.0 ==
            if n == 16383 then 16375.0
            else if n == -16383 then -16375.0
            else if n >= 0 then n as real
            else -((24576 + n) as real)
  {
    if -16383 < n < 0 {
      assert Word(n) == 0x10000 + n && Word(n) % 0x8000 == 0x8000 + n;
    } else if 0 <= n < 16383 {
      assert Word(n) % 0x8000 == n;
    }
  }

  /**
   * The components that survive the writer and the decoder to within half a step: the non-negative
   * ones below saturation, and of the negative ones only those next to 0 and next to -3/2.
   */
  lemma WrittenRoundTripsExactlyWhen(v: real)
    ensures Magnitude(FromFixedOrientation(Written(v)) - v) <= 1.0 / 16384.0 <==>
            -0.5 < 8192.0 * v < 16382.5 || -12288.5 < 8192.0 * v <= -12287.5
  {
    var n, limit := ToFixedOrientation(v), 16383.0 / 8192.0;
    WordDecodes(n);
    var d := FromFixedOrientation(Written(v));
    assert Magnitude(d - v) * 8192.0 == Magnitude(d * 8192.0 - 8192.0 * v);
    if v > limit {
      assert n == 16383;
    } else if v < -limit {
      assert n == -16383;
    } else {
      assert Nearest(n, 8192.0 * v);
    }
  }

  /** The writer emits the whole gap: every magnitude in it but the last, each for an interval of components. */
  lemma WriterEmitsTheGap(v: real, k: int)
    requires 8192 <= k < 16384
    ensures Written(v) == k <==> k < 16383 && k as real - 0.5 <= 8192.0 * v < k as real + 0.5
  {
    var n, limit := ToFixedOrientation(v), 16383.0 / 8192.0;
    if v > limit {
      assert n == 16383;
    } else if v < -limit {
      assert n == -16383;
    } else {
      assert Nearest(n, 8192.0 * v);
    }
  }

  /** So the formula and the writer part: 3/2 is written inside the gap. */
  lemma WriterIsNotTheFormula()
    ensures Written(1.5) == 12288 && !EncodesAs(1.5, 12288)
    ensures Written(-0.5) == 0xF000 && FromFixedOrientation(0xF000) == -2.5
  {
    WriterEmitsTheGap(1.5, 12288);
    assert ToFixedOrientation(-0.5) == -4096;
  }
}
