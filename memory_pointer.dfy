/**
 * The raw-memory handle (`CPointer`) of the scripting runtime: an address
 * plus an auto-deallocate flag, and the guarded operations it offers over
 * the memory of the host process.
 *
 * The target is 32-bit: an `unsigned long` address or stored pointer is
 * one 4-byte little-endian word. Process memory is a finite map from
 * address to byte; touching an address outside its domain is the hardware
 * fault that the source's fault guard turns into an error.
 */
module MemoryPointer {
  import opened Wrappers

  const ADDR_LIMIT: int := 0x1_0000_0000
  const WORD_SIZE: nat := 4
  /** A pattern byte that matches any memory byte in SearchBytes. */
  const WILDCARD: Byte := 0x2A

  type Byte = b: int | 0 <= b < 256
  type Addr = a: int | 0 <= a < 0x1_0000_0000
  /** The source's `int` parameters (offsets, indices, sizes). */
  type Int32 = i: int | -0x8000_0000 <= i < 0x8000_0000

  /** The mapped part of the process memory. */
  type Heap = map<Addr, Byte>

  datatype Error =
    | NullPointer    // "Pointer is NULL."
    | MemoryFault    // a guarded access touched an unmapped address
    | RangeTooSmall  // "Search range is too small."
    | Overlapping    // "Pointers are overlapping!"
    | NoVTable       // "Failed to get the virtual function table."
    | NotVirtual     // "Function is not a virtual function."

  /** A `CPointer`: both fields are fixed by the constructor, whose defaults are 0 and false. */
  datatype Pointer = Pointer(addr: Addr, autoDealloc: bool)

  /** Calling conventions and argument/return types are tokens this core only forwards. */
  type CallingConvention = int
  type DataType = int

  /** A `CFunction` as constructed here: where it lives and how it is to be called. */
  datatype CFunction = CFunction(
    addr: Addr, convention: CallingConvention, argTypes: seq<DataType>, returnType: DataType)

  /** The parts of a `CFunctionInfo` that binding reads. */
  datatype FunctionInfo = FunctionInfo(
    isVirtual: bool, vtableOffset: Int32, vtableIndex: Int32,
    convention: CallingConvention, argTypes: seq<DataType>, returnType: DataType)

  /** What the lifecycle operations hand to code outside this core, in order. */
  datatype Event =
    | Callback(name: string, addr: Addr)  // `CallCallback(self, name)`
    | Deallocated(addr: Addr)             // `Dealloc()`
    | Reallocated(addr: Addr, size: Int32) // `UTIL_Realloc(addr, size)`

  // ---------------------------------------------------------------------------
  // Validation and address arithmetic
  // ---------------------------------------------------------------------------

  /** `Validate`: every accessor refuses the null address before touching memory. */
  function Validate(p: Pointer): (r: Outcome<Error>)
    ensures r.Fail? <==> p.addr == 0
    ensures r.Fail? ==> r.error == NullPointer
  {
    if p.addr == 0 then Fail(NullPointer) else Pass
  }

  /** `addr + delta` for a signed `delta`, as 32-bit unsigned arithmetic. */
  function Offset(a: Addr, delta: int): (r: Addr)
    ensures 0 <= a + delta < ADDR_LIMIT ==> r == a + delta
  {
    (a + delta) % ADDR_LIMIT
  }

  // ---------------------------------------------------------------------------
  // Byte ranges
  // ---------------------------------------------------------------------------

  /** Every address of `[a, a + n)` is mapped. */
  predicate Mapped(m: Heap, a: int, n: nat) {
    forall i :: a <= i < a + n ==> i in m
  }

  function ReadBytes(m: Heap, a: int, n: nat): (s: seq<Byte>)
    requires Mapped(m, a, n)
    ensures |s| == n && forall k :: 0 <= k < n ==> s[k] == m[a + k]
  {
    seq(n, k requires 0 <= k < n => m[a + k])
  }

  /** The memory after `s` is stored at `a`; nothing is mapped or unmapped. */
  function WriteBytes(m: Heap, a: int, s: seq<Byte>): (m': Heap)
    requires Mapped(m, a, |s|)
    ensures m'.Keys == m.Keys
    ensures forall k :: 0 <= k < |s| ==> m'[a + k] == s[k]
    ensures forall i :: i in m && !(a <= i < a + |s|) ==> m'[i] == m[i]
  {
    map i | i in m :: if a <= i < a + |s| then s[i - a] else m[i]
  }

  lemma ReadAfterWrite(m: Heap, a: int, s: seq<Byte>)
    requires Mapped(m, a, |s|)
    ensures Mapped(WriteBytes(m, a, s), a, |s|)
    ensures ReadBytes(WriteBytes(m, a, s), a, |s|) == s
  {
  }

  /** A write leaves every range that lies outside it as it was. */
  lemma ReadOutsideWrite(m: Heap, a: int, s: seq<Byte>, b: int, n: nat)
    requires Mapped(m, a, |s|) && Mapped(m, b, n)
    requires b + n <= a || a + |s| <= b
    ensures Mapped(WriteBytes(m, a, s), b, n)
    ensures ReadBytes(WriteBytes(m, a, s), b, n) == ReadBytes(m, b, n)
  {
  }

  // ---------------------------------------------------------------------------
  // Words
  // ---------------------------------------------------------------------------

  function Pow256(n: nat): (r: nat)
    ensures r > 0
  {
    if n == 0 then 1 else 256 * Pow256(n - 1)
  }

  lemma Pow256Word()
    ensures Pow256(WORD_SIZE) == ADDR_LIMIT
  {
    assert Pow256(1) == 256;
    assert Pow256(2) == 0x1_0000;
    assert Pow256(3) == 0x100_0000;
  }

  /** The `n` low-order bytes of `w`, least significant first. */
  function EncodeLE(w: nat, n: nat): (s: seq<Byte>)
    ensures |s| == n
  {
    if n == 0 then [] else [w % 256] + EncodeLE(w / 256, n - 1)
  }

  /** The number whose little-endian bytes are `s`. */
  function DecodeLE(s: seq<Byte>): (w: nat)
    ensures w < Pow256(|s|)
  {
    if s == [] then 0 else s[0] + 256 * DecodeLE(s[1..])
  }

  lemma {:induction false} DecodeEncodeLE(w: nat, n: nat)
    requires w < Pow256(n)
    ensures DecodeLE(EncodeLE(w, n)) == w
  {
    if n > 0 {
      DecodeEncodeLE(w / 256, n - 1);
      assert EncodeLE(w, n)[1..] == EncodeLE(w / 256, n - 1);
    }
  }

  lemma {:induction false} EncodeDecodeLE(s: seq<Byte>)
    ensures EncodeLE(DecodeLE(s), |s|) == s
  {
    if s != [] {
      EncodeDecodeLE(s[1..]);
      var w := DecodeLE(s);
      assert w % 256 == s[0];
      assert w / 256 == DecodeLE(s[1..]);
    }
  }

  function EncodeWord(w: Addr): (s: seq<Byte>)
    ensures |s| == WORD_SIZE
  {
    EncodeLE(w, WORD_SIZE)
  }

  function DecodeWord(s: seq<Byte>): Addr
    requires |s| == WORD_SIZE
  {
    Pow256Word();
    DecodeLE(s)
  }

  /** Storing a pointer and loading it back gives the same address. */
  lemma WordCodecRoundTrip(w: Addr)
    ensures DecodeWord(EncodeWord(w)) == w
  {
    Pow256Word();
    DecodeEncodeLE(w, WORD_SIZE);
  }

  /** Every 4-byte word is the encoding of the address it decodes to. */
  lemma WordCodecSurjective(s: seq<Byte>)
    requires |s| == WORD_SIZE
    ensures EncodeWord(DecodeWord(s)) == s
  {
    EncodeDecodeLE(s);
  }

  /** `*(unsigned long *) a`. */
  function ReadWord(m: Heap, a: int): Addr
    requires Mapped(m, a, WORD_SIZE)
  {
    DecodeWord(ReadBytes(m, a, WORD_SIZE))
  }

  /**
   * `SetPtr` then `GetPtr` at the same place: the word stored is the word
   * loaded, and every word disjoint from it is untouched.
   */
  lemma StoreThenLoadWord(m: Heap, a: int, x: Addr, b: int)
    requires Mapped(m, a, WORD_SIZE) && Mapped(m, b, WORD_SIZE)
    ensures Mapped(WriteBytes(m, a, EncodeWord(x)), a, WORD_SIZE)
    ensures ReadWord(WriteBytes(m, a, EncodeWord(x)), a) == x
    ensures b + WORD_SIZE <= a || a + WORD_SIZE <= b ==>
              ReadWord(WriteBytes(m, a, EncodeWord(x)), b) == ReadWord(m, b)
  {
    ReadAfterWrite(m, a, EncodeWord(x));
    WordCodecRoundTrip(x);
    if b + WORD_SIZE <= a || a + WORD_SIZE <= b {
      ReadOutsideWrite(m, a, EncodeWord(x), b, WORD_SIZE);
    }
  }

  // ---------------------------------------------------------------------------
  // C strings
  // ---------------------------------------------------------------------------

  /** The part of `t` that `strcpy` copies: everything before its first NUL. */
  function CPrefix(t: seq<Byte>): (s: seq<Byte>)
    ensures s <= t
    ensures forall k :: 0 <= k < |s| ==> s[k] != 0
    ensures |s| < |t| ==> t[|s|] == 0
  {
    if t == [] || t[0] == 0 then [] else [t[0]] + CPrefix(t[1..])
  }

  /** The NUL-terminated string stored at `a`, read byte by byte until its terminator. */
  function CStringAt(m: Heap, a: int): (r: Result<seq<Byte>, Error>)
    ensures r.Err? ==> r.error == MemoryFault
    decreases ADDR_LIMIT - a
  {
    if a !in m then Err(MemoryFault)
    else if m[a] == 0 then Ok([])
    else
      match CStringAt(m, a + 1)
      case Ok(s) => Ok([m[a]] + s)
      case Err(e) => Err(e)
  }

  /** `s` is stored at `a`, contains no NUL, and is followed by a NUL. */
  ghost predicate IsCStringAt(m: Heap, a: int, s: seq<Byte>) {
    && Mapped(m, a, |s| + 1)
    && (forall k :: 0 <= k < |s| ==> s[k] != 0 && m[a + k] == s[k])
    && m[a + |s|] == 0
  }

  /** Reading a C string yields exactly the bytes before the first NUL at `a`. */
  lemma {:induction false} CStringAtMeaning(m: Heap, a: int, s: seq<Byte>)
    ensures CStringAt(m, a) == Ok(s) <==> IsCStringAt(m, a, s)
    decreases |s|
  {
    if s != [] {
      CStringAtMeaning(m, a + 1, s[1..]);
      if IsCStringAt(m, a, s) {
        assert a in m && m[a] == s[0] != 0;
        assert IsCStringAt(m, a + 1, s[1..]) by {
          forall k | 0 <= k < |s| - 1 ensures s[1..][k] != 0 && m[a + 1 + k] == s[1..][k] {
            assert s[1..][k] == s[k + 1];
          }
        }
        assert s == [m[a]] + s[1..];
      }
      if CStringAt(m, a) == Ok(s) {
        assert CStringAt(m, a + 1) == Ok(s[1..]);
        assert s[0] == m[a];
        forall k | 0 <= k < |s| ensures s[k] != 0 && m[a + k] == s[k] {
          if k > 0 { assert s[k] == s[1..][k - 1]; }
        }
      }
    }
  }

  /** `SetStringArray` then `GetStringArray` at the same place yields the copied text. */
  lemma CStringStoreThenLoad(m: Heap, a: int, t: seq<Byte>)
    requires Mapped(m, a, |CPrefix(t)| + 1)
    ensures CStringAt(WriteBytes(m, a, CPrefix(t) + [0]), a) == Ok(CPrefix(t))
  {
    var s := CPrefix(t);
    var m' := WriteBytes(m, a, s + [0]);
    assert forall k :: 0 <= k < |s| ==> m'[a + k] == (s + [0])[k] == s[k];
    assert m'[a + |s|] == (s + [0])[|s|] == 0;
    CStringAtMeaning(m', a, s);
  }

  /** Writing back the string just read changes no byte. */
  lemma CStringLoadThenStore(m: Heap, a: int, s: seq<Byte>)
    requires CStringAt(m, a) == Ok(s)
    ensures Mapped(m, a, |s| + 1)
    ensures WriteBytes(m, a, s + [0]) == m
  {
    CStringAtMeaning(m, a, s);
    var m' := WriteBytes(m, a, s + [0]);
    forall i | i in m ensures m'[i] == m[i] {
      if a <= i < a + |s| + 1 {
        assert m'[a + (i - a)] == (s + [0])[i - a];
      }
    }
  }

  /** Text without a NUL is copied whole. */
  lemma {:induction false} CPrefixOfPlainText(t: seq<Byte>)
    requires forall k :: 0 <= k < |t| ==> t[k] != 0
    ensures CPrefix(t) == t
  {
    if t != [] {
      CPrefixOfPlainText(t[1..]);
      assert t == [t[0]] + t[1..];
    }
  }

  // ---------------------------------------------------------------------------
  // Comparison
  // ---------------------------------------------------------------------------

  /** `k` is the first position at which `s` and `t` differ. */
  ghost predicate IsFirstDifference(s: seq<Byte>, t: seq<Byte>, k: int) {
    0 <= k < |s| == |t| && s[..k] == t[..k] && s[k] != t[k]
  }

  /** The sign of `memcmp`: bytes compare as unsigned values, the first difference decides. */
  function CompareSeq(s: seq<Byte>, t: seq<Byte>): (c: int)
    requires |s| == |t|
    ensures -1 <= c <= 1
    ensures c == 0 <==> s == t
  {
    if s == [] then 0
    else if s[0] < t[0] then -1
    else if s[0] > t[0] then 1
    else
      var c' := CompareSeq(s[1..], t[1..]);
      assert c' == 0 ==> s == [s[0]] + s[1..] == [t[0]] + t[1..] == t;
      c'
  }

  /** A non-zero comparison is decided by the first differing byte. */
  lemma {:induction false} CompareSeqFirstDifference(s: seq<Byte>, t: seq<Byte>)
    requires |s| == |t| && CompareSeq(s, t) != 0
    ensures exists k :: IsFirstDifference(s, t, k) && (CompareSeq(s, t) < 0 <==> s[k] < t[k])
  {
    if s[0] != t[0] {
      assert IsFirstDifference(s, t, 0);
    } else {
      CompareSeqFirstDifference(s[1..], t[1..]);
      var k :| IsFirstDifference(s[1..], t[1..], k) && (CompareSeq(s[1..], t[1..]) < 0 <==> s[1..][k] < t[1..][k]);
      assert s[..k + 1] == [s[0]] + s[1..][..k];
      assert t[..k + 1] == [t[0]] + t[1..][..k];
      assert IsFirstDifference(s, t, k + 1);
    }
  }

  /** Swapping the operands negates the comparison. */
  lemma {:induction false} CompareSeqAntisymmetric(s: seq<Byte>, t: seq<Byte>)
    requires |s| == |t|
    ensures CompareSeq(t, s) == -CompareSeq(s, t)
  {
    if s != [] && s[0] == t[0] {
      CompareSeqAntisymmetric(s[1..], t[1..]);
    }
  }

  // ---------------------------------------------------------------------------
  // Overlap
  // ---------------------------------------------------------------------------

  ghost predicate InRange(x: int, a: int, n: nat) {
    a <= x < a + n
  }

  /** `IsOverlapping`, which unlike the other accessors does not validate. */
  predicate IsOverlapping(p: Pointer, other: Pointer, n: nat) {
    if p.addr <= other.addr then p.addr + n > other.addr else other.addr + n > p.addr
  }

  /** The test is symmetric and holds exactly when the two `n`-byte ranges share an address. */
  lemma IsOverlappingMeaning(p: Pointer, other: Pointer, n: nat)
    ensures IsOverlapping(p, other, n) == IsOverlapping(other, p, n)
    ensures IsOverlapping(p, other, n) <==>
              exists x :: InRange(x, p.addr, n) && InRange(x, other.addr, n)
    ensures n == 0 ==> !IsOverlapping(p, other, n)
  {
    var hi := if p.addr <= other.addr then other.addr else p.addr;
    if IsOverlapping(p, other, n) {
      assert InRange(hi, p.addr, n) && InRange(hi, other.addr, n);
    }
  }

  /** After a permitted (non-overlapping) copy the source range still holds its bytes. */
  lemma CopyKeepsSource(m: Heap, src: Pointer, dest: Pointer, n: nat)
    requires Mapped(m, src.addr, n) && Mapped(m, dest.addr, n)
    requires !IsOverlapping(src, dest, n)
    ensures Mapped(WriteBytes(m, dest.addr, ReadBytes(m, src.addr, n)), src.addr, n)
    ensures ReadBytes(WriteBytes(m, dest.addr, ReadBytes(m, src.addr, n)), src.addr, n)
            == ReadBytes(m, src.addr, n)
  {
    ReadOutsideWrite(m, dest.addr, ReadBytes(m, src.addr, n), src.addr, n);
  }

  // ---------------------------------------------------------------------------
  // Byte-pattern search
  // ---------------------------------------------------------------------------

  datatype ProbeResult = Match | Mismatch | Fault

  /**
   * The inner loop of `SearchBytesHelper` at `base`, from pattern position
   * `i`: wildcards are skipped without reading memory, the first
   * non-wildcard byte that differs stops the probe.
   */
  function Probe(m: Heap, base: int, pattern: seq<Byte>, i: nat): ProbeResult
    requires i <= |pattern|
    decreases |pattern| - i
  {
    if i == |pattern| then Match
    else if pattern[i] == WILDCARD then Probe(m, base, pattern, i + 1)
    else if base + i !in m then Fault
    else if m[base + i] != pattern[i] then Mismatch
    else Probe(m, base, pattern, i + 1)
  }

  /** Every non-wildcard byte of `pattern` equals the byte at the same distance from `base`. */
  ghost predicate Matches(m: Heap, base: int, pattern: seq<Byte>) {
    forall i :: 0 <= i < |pattern| ==>
      pattern[i] == WILDCARD || (base + i in m && m[base + i] == pattern[i])
  }

  datatype ScanResult = Found(pos: int) | NoMatch | Faulted

  /** The outer loop of `SearchBytesHelper`: probe each start in `[base, end)` in turn. */
  function Scan(m: Heap, base: int, end: int, pattern: seq<Byte>): ScanResult
    decreases end - base
  {
    if base >= end then NoMatch
    else
      match Probe(m, base, pattern, 0)
      case Match => Found(base)
      case Fault => Faulted
      case Mismatch => Scan(m, base + 1, end, pattern)
  }

  lemma {:induction false} ProbeMeaning(m: Heap, base: int, pattern: seq<Byte>, i: nat)
    requires i <= |pattern|
    ensures Probe(m, base, pattern, i) == Match <==>
              forall j :: i <= j < |pattern| ==>
                pattern[j] == WILDCARD || (base + j in m && m[base + j] == pattern[j])
    decreases |pattern| - i
  {
    if i < |pattern| {
      ProbeMeaning(m, base, pattern, i + 1);
    }
  }

  /** A probe that matches at an unmapped start can only have met wildcards. */
  lemma {:induction false} ProbeMatchUnmapped(m: Heap, q: int, pattern: seq<Byte>, i: nat)
    requires i <= |pattern| && q >= ADDR_LIMIT
    requires Probe(m, q, pattern, i) == Match
    ensures forall j :: i <= j < |pattern| ==> pattern[j] == WILDCARD
    decreases |pattern| - i
  {
    if i < |pattern| {
      ProbeMatchUnmapped(m, q, pattern, i + 1);
    }
  }

  /** A search that starts at a real address finds only real addresses. */
  lemma {:induction false} ScanFoundIsAddress(m: Heap, base: int, end: int, pattern: seq<Byte>)
    requires 0 <= base < ADDR_LIMIT
    requires Scan(m, base, end, pattern).Found?
    ensures Scan(m, base, end, pattern).pos < ADDR_LIMIT
    decreases end - base
  {
    var r := Scan(m, base, end, pattern);
    if r.pos != base {
      assert Probe(m, base, pattern, 0) == Mismatch;
      if base + 1 < ADDR_LIMIT {
        ScanFoundIsAddress(m, base + 1, end, pattern);
      } else {
        ScanFindsFirst(m, base + 1, end, pattern);
        ProbeMeaning(m, r.pos, pattern, 0);
        ProbeMatchUnmapped(m, r.pos, pattern, 0);
        ProbeMeaning(m, base, pattern, 0);
      }
    }
  }

  /**
   * The search returns the lowest start in `[base, end)` at which the
   * pattern matches, reports no match only when none matches, and can
   * fault only where the range it probes is not fully mapped.
   */
  lemma {:induction false} ScanFindsFirst(m: Heap, base: int, end: int, pattern: seq<Byte>)
    ensures Scan(m, base, end, pattern).Found? ==>
              var q := Scan(m, base, end, pattern).pos;
              && base <= q < end
              && Matches(m, q, pattern)
              && forall q' :: base <= q' < q ==> !Matches(m, q', pattern)
    ensures Scan(m, base, end, pattern).NoMatch? ==>
              forall q' :: base <= q' < end ==> !Matches(m, q', pattern)
    ensures base < end && Mapped(m, base, end - base - 1 + |pattern|) ==>
              !Scan(m, base, end, pattern).Faulted?
    decreases end - base
  {
    if base < end {
      ProbeMeaning(m, base, pattern, 0);
      match Probe(m, base, pattern, 0)
      case Match =>
      case Fault =>
        ProbeFaultUnmapped(m, base, pattern, 0);
      case Mismatch =>
        ScanFindsFirst(m, base + 1, end, pattern);
        assert !Matches(m, base, pattern) by { ProbeMismatchNoMatch(m, base, pattern, 0); }
    }
  }

  lemma {:induction false} ProbeMismatchNoMatch(m: Heap, base: int, pattern: seq<Byte>, i: nat)
    requires i <= |pattern| && Probe(m, base, pattern, i) == Mismatch
    ensures exists j :: i <= j < |pattern| && pattern[j] != WILDCARD && base + j in m && m[base + j] != pattern[j]
    decreases |pattern| - i
  {
    if pattern[i] == WILDCARD || (base + i in m && m[base + i] == pattern[i]) {
      ProbeMismatchNoMatch(m, base, pattern, i + 1);
    }
  }

  lemma {:induction false} ProbeFaultUnmapped(m: Heap, base: int, pattern: seq<Byte>, i: nat)
    requires i <= |pattern| && Probe(m, base, pattern, i) == Fault
    ensures !Mapped(m, base + i, |pattern| - i)
    decreases |pattern| - i
  {
    if pattern[i] == WILDCARD || (base + i in m && m[base + i] == pattern[i]) {
      ProbeFaultUnmapped(m, base, pattern, i + 1);
    }
  }

  /** A pattern made only of wildcards matches at the first start of any non-empty range. */
  lemma WildcardPatternMatchesFirst(m: Heap, base: int, end: int, pattern: seq<Byte>)
    requires base < end
    requires forall i :: 0 <= i < |pattern| ==> pattern[i] == WILDCARD
    ensures Scan(m, base, end, pattern) == Found(base)
  {
    ProbeMeaning(m, base, pattern, 0);
  }

  // ---------------------------------------------------------------------------
  // Virtual functions
  // ---------------------------------------------------------------------------

  /**
   * `GetVirtualFuncHelper(addr, index)`: the word at `addr` is the vtable
   * pointer; a null vtable is refused, otherwise slot `index` is read.
   */
  function VirtualFuncAt(m: Heap, addr: Addr, index: Int32): Result<Addr, Error> {
    if !Mapped(m, addr, WORD_SIZE) then Err(MemoryFault)
    else
      var vtable := ReadWord(m, addr);
      if vtable == 0 then Err(NoVTable)
      else
        var slot := Offset(vtable, WORD_SIZE * index);
        if !Mapped(m, slot, WORD_SIZE) then Err(MemoryFault) else Ok(ReadWord(m, slot))
  }

  /** A null vtable pointer is refused whatever slot is asked for. */
  lemma NullVTableEveryIndex(m: Heap, addr: Addr)
    requires Mapped(m, addr, WORD_SIZE) && ReadWord(m, addr) == 0
    ensures forall i: Int32 :: VirtualFuncAt(m, addr, i) == Err(NoVTable)
  {
  }

  /** With a vtable of `|table|` words laid out at the vtable pointer, slot `i` is `table[i]`. */
  lemma VirtualFuncReadsSlot(m: Heap, addr: Addr, table: seq<Addr>, i: Int32)
    requires Mapped(m, addr, WORD_SIZE) && ReadWord(m, addr) != 0
    requires ReadWord(m, addr) + WORD_SIZE * |table| <= ADDR_LIMIT
    requires forall k :: 0 <= k < |table| ==>
               Mapped(m, ReadWord(m, addr) + WORD_SIZE * k, WORD_SIZE) &&
               ReadWord(m, ReadWord(m, addr) + WORD_SIZE * k) == table[k]
    requires 0 <= i < |table|
    ensures VirtualFuncAt(m, addr, i) == Ok(table[i])
  {
    var vt := ReadWord(m, addr);
    assert Offset(vt, WORD_SIZE * i) == vt + WORD_SIZE * i;
  }

  // ---------------------------------------------------------------------------
  // Function binding
  // ---------------------------------------------------------------------------

  /** `MakeFunction(convention, args, return_type)`: bind the handle's own address. */
  function MakeFunction(p: Pointer, convention: CallingConvention, argTypes: seq<DataType>,
                        returnType: DataType): (r: Result<CFunction, Error>)
    ensures r.Err? <==> p.addr == 0
    ensures r.Err? ==> r.error == NullPointer
    ensures r.Ok? ==> r.value == CFunction(p.addr, convention, argTypes, returnType)
  {
    if p.addr == 0 then Err(NullPointer)
    else Ok(CFunction(p.addr, convention, argTypes, returnType))
  }

  /** `MakeFunction(info)`: the same binding, with the signature taken from `info`. */
  function MakeFunctionFromInfo(p: Pointer, info: FunctionInfo): (r: Result<CFunction, Error>)
    ensures r == MakeFunction(p, info.convention, info.argTypes, info.returnType)
  {
    if p.addr == 0 then Err(NullPointer)
    else Ok(CFunction(p.addr, info.convention, info.argTypes, info.returnType))
  }

  /** The result of `GetVirtualFunc` handed on to `MakeFunction`, as the index overload does. */
  function BindSlot(slot: Result<Addr, Error>, convention: CallingConvention,
                    argTypes: seq<DataType>, returnType: DataType): Result<CFunction, Error>
  {
    match slot
    case Err(e) => Err(e)
    case Ok(a) => MakeFunction(Pointer(a, false), convention, argTypes, returnType)
  }

  /**
   * The two virtual-binding paths agree on a non-null slot of the vtable at
   * offset 0. On a null slot the index path refuses with `NullPointer`
   * (it re-validates the fetched handle) while the info path binds address 0.
   */
  lemma VirtualBindingPathsAgree(m: Heap, p: Pointer, info: FunctionInfo)
    requires p.addr != 0 && info.isVirtual && info.vtableOffset == 0
    ensures Offset(p.addr, info.vtableOffset) == p.addr
    ensures VirtualFuncAt(m, p.addr, info.vtableIndex) == Ok(0) ==>
              BindSlot(VirtualFuncAt(m, p.addr, info.vtableIndex),
                       info.convention, info.argTypes, info.returnType) == Err(NullPointer)
    ensures VirtualFuncAt(m, p.addr, info.vtableIndex).Ok? &&
            VirtualFuncAt(m, p.addr, info.vtableIndex).value != 0 ==>
              BindSlot(VirtualFuncAt(m, p.addr, info.vtableIndex),
                       info.convention, info.argTypes, info.returnType)
              == Ok(CFunction(VirtualFuncAt(m, p.addr, info.vtableIndex).value,
                              info.convention, info.argTypes, info.returnType))
  {
  }

  // ---------------------------------------------------------------------------
  // The process memory and the handle operations over it
  // ---------------------------------------------------------------------------

  class Memory {
    /** The mapped bytes of the process. */
    var bytes: Heap
    /** Callbacks and foreign allocator calls issued so far, oldest first. */
    var events: seq<Event>

    constructor (initial: Heap)
      ensures bytes == initial && events == []
    {
      bytes := initial;
      events := [];
    }

    /**
     * `GetStringArray`: the NUL-terminated string at `addr + offset`. An
     * address that wraps to 0 is a null `const char*`, which reads nothing
     * and converts to `None`.
     */
    method GetStringArray(p: Pointer, offset: Int32) returns (r: Result<Option<seq<Byte>>, Error>)
      ensures p.addr == 0 ==> r == Err(NullPointer)
      ensures p.addr != 0 && Offset(p.addr, offset) == 0 ==> r == Ok(None)
      ensures p.addr != 0 && Offset(p.addr, offset) != 0 && r.Ok? ==>
                r.value.Some? && IsCStringAt(bytes, Offset(p.addr, offset), r.value.value)
      ensures p.addr != 0 && Offset(p.addr, offset) != 0 && r.Err? ==>
                r.error == MemoryFault && forall s :: !IsCStringAt(bytes, Offset(p.addr, offset), s)
    {
      if p.addr == 0 {
        return Err(NullPointer);
      }
      var at := Offset(p.addr, offset);
      if at == 0 {
        return Ok(None);
      }
      var read := CStringAt(bytes, at);
      forall s | true ensures CStringAt(bytes, at) == Ok(s) <==> IsCStringAt(bytes, at, s) {
        CStringAtMeaning(bytes, at, s);
      }
      if read.Ok? {
        r := Ok(Some(read.value));
      } else {
        r := Err(read.error);
      }
    }

    /** `SetStringArray`: `strcpy` of `text` (up to its first NUL) plus a terminator. */
    method SetStringArray(p: Pointer, text: seq<Byte>, offset: Int32) returns (r: Outcome<Error>)
      modifies this`bytes
      ensures p.addr == 0 ==> r == Fail(NullPointer) && bytes == old(bytes)
      ensures p.addr != 0 && !Mapped(old(bytes), Offset(p.addr, offset), |CPrefix(text)| + 1) ==>
                r == Fail(MemoryFault) && bytes == old(bytes)
      ensures p.addr != 0 && Mapped(old(bytes), Offset(p.addr, offset), |CPrefix(text)| + 1) ==>
                r == Pass &&
                bytes == WriteBytes(old(bytes), Offset(p.addr, offset), CPrefix(text) + [0])
      ensures r == Pass ==> CStringAt(bytes, Offset(p.addr, offset)) == Ok(CPrefix(text))
    {
      if p.addr == 0 {
        return Fail(NullPointer);
      }
      var a := Offset(p.addr, offset);
      var s := CPrefix(text);
      if !Mapped(bytes, a, |s| + 1) {
        return Fail(MemoryFault);
      }
      CStringStoreThenLoad(bytes, a, text);
      bytes := WriteBytes(bytes, a, s + [0]);
      r := Pass;
    }

    /** `GetPtr`: a new handle to the address stored in the word at `addr + offset`. */
    method GetPtr(p: Pointer, offset: Int32) returns (r: Result<Pointer, Error>)
      ensures p.addr == 0 ==> r == Err(NullPointer)
      ensures p.addr != 0 && !Mapped(bytes, Offset(p.addr, offset), WORD_SIZE) ==>
                r == Err(MemoryFault)
      ensures p.addr != 0 && Mapped(bytes, Offset(p.addr, offset), WORD_SIZE) ==>
                r == Ok(Pointer(ReadWord(bytes, Offset(p.addr, offset)), false))
    {
      if p.addr == 0 {
        return Err(NullPointer);
      }
      var a := Offset(p.addr, offset);
      if !Mapped(bytes, a, WORD_SIZE) {
        return Err(MemoryFault);
      }
      r := Ok(Pointer(ReadWord(bytes, a), false));
    }

    /**
     * `SetPtr`: store `other`'s address in the word at `addr + offset`.
     * `other` itself is not validated: a null handle stores 0.
     */
    method SetPtr(p: Pointer, other: Pointer, offset: Int32) returns (r: Outcome<Error>)
      modifies this`bytes
      ensures p.addr == 0 ==> r == Fail(NullPointer) && bytes == old(bytes)
      ensures p.addr != 0 && !Mapped(old(bytes), Offset(p.addr, offset), WORD_SIZE) ==>
                r == Fail(MemoryFault) && bytes == old(bytes)
      ensures p.addr != 0 && Mapped(old(bytes), Offset(p.addr, offset), WORD_SIZE) ==>
                r == Pass &&
                bytes == WriteBytes(old(bytes), Offset(p.addr, offset), EncodeWord(other.addr))
      ensures r == Pass ==>
                Mapped(bytes, Offset(p.addr, offset), WORD_SIZE) &&
                ReadWord(bytes, Offset(p.addr, offset)) == other.addr
    {
      if p.addr == 0 {
        return Fail(NullPointer);
      }
      var a := Offset(p.addr, offset);
      if !Mapped(bytes, a, WORD_SIZE) {
        return Fail(MemoryFault);
      }
      StoreThenLoadWord(bytes, a, other.addr, a);
      bytes := WriteBytes(bytes, a, EncodeWord(other.addr));
      r := Pass;
    }

    /** `Compare`: three-way comparison of `n` bytes at the two handles; both are validated. */
    method Compare(p: Pointer, other: Pointer, n: nat) returns (r: Result<int, Error>)
      ensures p.addr == 0 || other.addr == 0 ==> r == Err(NullPointer)
      ensures p.addr != 0 && other.addr != 0 &&
              !(Mapped(bytes, p.addr, n) && Mapped(bytes, other.addr, n)) ==>
                r == Err(MemoryFault)
      ensures p.addr != 0 && other.addr != 0 &&
              Mapped(bytes, p.addr, n) && Mapped(bytes, other.addr, n) ==>
                && r == Ok(CompareSeq(ReadBytes(bytes, p.addr, n), ReadBytes(bytes, other.addr, n)))
                && (r.value == 0 <==> ReadBytes(bytes, p.addr, n) == ReadBytes(bytes, other.addr, n))
    {
      if p.addr == 0 || other.addr == 0 {
        return Err(NullPointer);
      }
      if !(Mapped(bytes, p.addr, n) && Mapped(bytes, other.addr, n)) {
        return Err(MemoryFault);
      }
      r := Ok(CompareSeq(ReadBytes(bytes, p.addr, n), ReadBytes(bytes, other.addr, n)));
    }

    /**
     * `Copy`: `memcpy` of `n` bytes from `p` to `dest`, refusing overlapping
     * ranges after both handles are validated.
     */
    method Copy(p: Pointer, dest: Pointer, n: nat) returns (r: Outcome<Error>)
      modifies this`bytes
      ensures p.addr == 0 || dest.addr == 0 ==> r == Fail(NullPointer)
      ensures p.addr != 0 && dest.addr != 0 ==> (r == Fail(Overlapping) <==> IsOverlapping(p, dest, n))
      ensures p.addr != 0 && dest.addr != 0 && !IsOverlapping(p, dest, n) &&
              Mapped(old(bytes), p.addr, n) && Mapped(old(bytes), dest.addr, n)
              ==> r == Pass
      ensures p.addr != 0 && dest.addr != 0 && !IsOverlapping(p, dest, n) &&
              !(Mapped(old(bytes), p.addr, n) && Mapped(old(bytes), dest.addr, n)) ==>
                r == Fail(MemoryFault)
      ensures r.Fail? ==> bytes == old(bytes)
      ensures r == Pass ==>
                && Mapped(old(bytes), p.addr, n) && Mapped(bytes, dest.addr, n)
                && bytes.Keys == old(bytes).Keys
                && ReadBytes(bytes, dest.addr, n) == ReadBytes(old(bytes), p.addr, n)
                && (forall i :: i in old(bytes) && !InRange(i, dest.addr, n) ==> bytes[i] == old(bytes)[i])
                && Mapped(bytes, p.addr, n)
                && ReadBytes(bytes, p.addr, n) == ReadBytes(old(bytes), p.addr, n)
    {
      if p.addr == 0 || dest.addr == 0 {
        return Fail(NullPointer);
      }
      if IsOverlapping(p, dest, n) {
        return Fail(Overlapping);
      }
      if !(Mapped(bytes, p.addr, n) && Mapped(bytes, dest.addr, n)) {
        return Fail(MemoryFault);
      }
      CopyKeepsSource(bytes, p, dest, n);
      bytes := WriteBytes(bytes, dest.addr, ReadBytes(bytes, p.addr, n));
      r := Pass;
    }

    /** `Move`: `memmove` of `n` bytes from `p` to `dest`; the ranges may overlap. */
    method Move(p: Pointer, dest: Pointer, n: nat) returns (r: Outcome<Error>)
      modifies this`bytes
      ensures p.addr == 0 || dest.addr == 0 ==> r == Fail(NullPointer)
      ensures p.addr != 0 && dest.addr != 0 &&
              !(Mapped(old(bytes), p.addr, n) && Mapped(old(bytes), dest.addr, n)) ==>
                r == Fail(MemoryFault)
      ensures p.addr != 0 && dest.addr != 0 &&
              Mapped(old(bytes), p.addr, n) && Mapped(old(bytes), dest.addr, n)
              ==> r == Pass
      ensures r.Fail? ==> bytes == old(bytes)
      ensures r == Pass ==>
                && Mapped(old(bytes), p.addr, n) && Mapped(bytes, dest.addr, n)
                && bytes.Keys == old(bytes).Keys
                && ReadBytes(bytes, dest.addr, n) == ReadBytes(old(bytes), p.addr, n)
                && (forall i :: i in old(bytes) && !InRange(i, dest.addr, n) ==> bytes[i] == old(bytes)[i])
    {
      if p.addr == 0 || dest.addr == 0 {
        return Fail(NullPointer);
      }
      if !(Mapped(bytes, p.addr, n) && Mapped(bytes, dest.addr, n)) {
        return Fail(MemoryFault);
      }
      bytes := WriteBytes(bytes, dest.addr, ReadBytes(bytes, p.addr, n));
      r := Pass;
    }

    /**
     * `SearchBytes` / `SearchBytesHelper`: the first start in
     * `[addr, addr + n - |pattern| + 1)` where the pattern matches, or a
     * null handle.
     */
    method SearchBytes(p: Pointer, pattern: seq<Byte>, n: nat) returns (r: Result<Pointer, Error>)
      ensures p.addr == 0 ==> r == Err(NullPointer)
      ensures p.addr != 0 && n < |pattern| ==> r == Err(RangeTooSmall)
      ensures p.addr != 0 && |pattern| <= n ==>
                match Scan(bytes, p.addr, p.addr + n - |pattern| + 1, pattern)
                case Found(q) => r.Ok? && r.value.addr == q && !r.value.autoDealloc
                case NoMatch => r == Ok(Pointer(0, false))
                case Faulted => r == Err(MemoryFault)
    {
      if p.addr == 0 {
        return Err(NullPointer);
      }
      if n < |pattern| {
        return Err(RangeTooSmall);
      }
      var end := p.addr + n - |pattern| + 1;
      var base: int := p.addr;
      while base < end
        invariant p.addr <= base <= end
        invariant Scan(bytes, p.addr, end, pattern) == Scan(bytes, base, end, pattern)
        decreases end - base
      {
        var i := 0;
        while i < |pattern|
          invariant 0 <= i <= |pattern|
          invariant Probe(bytes, base, pattern, i) == Probe(bytes, base, pattern, 0)
        {
          if pattern[i] != WILDCARD {
            if base + i !in bytes {
              return Err(MemoryFault);
            }
            if pattern[i] != bytes[base + i] {
              break;
            }
          }
          i := i + 1;
        }
        if i == |pattern| {
          ScanFoundIsAddress(bytes, p.addr, end, pattern);
          return Ok(Pointer(base, false));
        }
        base := base + 1;
      }
      r := Ok(Pointer(0, false));
    }

    /** `GetVirtualFunc`: a new handle to slot `index` of the vtable of the object at `p`. */
    method GetVirtualFunc(p: Pointer, index: Int32) returns (r: Result<Pointer, Error>)
      ensures p.addr == 0 ==> r == Err(NullPointer)
      ensures p.addr != 0 ==>
                match VirtualFuncAt(bytes, p.addr, index)
                case Ok(a) => r == Ok(Pointer(a, false))
                case Err(e) => r == Err(e)
      ensures p.addr != 0 && Mapped(bytes, p.addr, WORD_SIZE) && ReadWord(bytes, p.addr) == 0 ==>
                r == Err(NoVTable)
    {
      if p.addr == 0 {
        return Err(NullPointer);
      }
      var slot := VirtualFuncAt(bytes, p.addr, index);
      match slot
      case Ok(a) => r := Ok(Pointer(a, false));
      case Err(e) => r := Err(e);
    }

    /** `MakeVirtualFunction(index, ...)`: `GetVirtualFunc(index)` followed by `MakeFunction`. */
    method MakeVirtualFunction(p: Pointer, index: Int32, convention: CallingConvention,
                               argTypes: seq<DataType>, returnType: DataType)
      returns (r: Result<CFunction, Error>)
      ensures p.addr == 0 ==> r == Err(NullPointer)
      ensures p.addr != 0 ==>
                r == BindSlot(VirtualFuncAt(bytes, p.addr, index), convention, argTypes, returnType)
    {
      var slot := GetVirtualFunc(p, index);
      match slot
      case Err(e) => r := Err(e);
      case Ok(q) => r := MakeFunction(q, convention, argTypes, returnType);
    }

    /**
     * `MakeVirtualFunction(info)`: refuse a non-virtual `info`, then bind
     * slot `info.vtableIndex` of the vtable found at `addr + info.vtableOffset`.
     * The address so found is not validated again.
     */
    method MakeVirtualFunctionFromInfo(p: Pointer, info: FunctionInfo)
      returns (r: Result<CFunction, Error>)
      ensures p.addr == 0 ==> r == Err(NullPointer)
      ensures p.addr != 0 && !info.isVirtual ==> r == Err(NotVirtual)
      ensures p.addr != 0 && info.isVirtual ==>
                match VirtualFuncAt(bytes, Offset(p.addr, info.vtableOffset), info.vtableIndex)
                case Ok(a) => r == Ok(CFunction(a, info.convention, info.argTypes, info.returnType))
                case Err(e) => r == Err(e)
    {
      if p.addr == 0 {
        return Err(NullPointer);
      }
      if !info.isVirtual {
        return Err(NotVirtual);
      }
      var slot := VirtualFuncAt(bytes, Offset(p.addr, info.vtableOffset), info.vtableIndex);
      match slot
      case Err(e) => r := Err(e);
      case Ok(a) => r := Ok(CFunction(a, info.convention, info.argTypes, info.returnType));
    }

    /**
     * `Realloc`: unvalidated; the foreign allocator moves the block and
     * `newAddr` is where it put it.
     */
    method Realloc(p: Pointer, size: Int32, newAddr: Addr) returns (r: Pointer)
      modifies this`events
      ensures events == old(events) + [Reallocated(p.addr, size)]
      ensures r == Pointer(newAddr, false)
    {
      events := events + [Reallocated(p.addr, size)];
      r := Pointer(newAddr, false);
    }

    /** `Dealloc`: hands the block back to the foreign allocator. */
    method Dealloc(p: Pointer)
      modifies this`events
      ensures events == old(events) + [Deallocated(p.addr)]
    {
      events := events + [Deallocated(p.addr)];
    }

    /** `PreDealloc`: the `on_dealloc` callback runs before the block is freed. */
    method PreDealloc(p: Pointer)
      modifies this`events
      ensures events == old(events) + [Callback("on_dealloc", p.addr), Deallocated(p.addr)]
    {
      events := events + [Callback("on_dealloc", p.addr)];
      Dealloc(p);
    }

    /** `PreRealloc`: the `on_realloc` callback runs before the block is moved. */
    method PreRealloc(p: Pointer, size: Int32, newAddr: Addr) returns (r: Pointer)
      modifies this`events
      ensures events == old(events) + [Callback("on_realloc", p.addr), Reallocated(p.addr, size)]
      ensures r == Pointer(newAddr, false)
    {
      events := events + [Callback("on_realloc", p.addr)];
      r := Realloc(p, size, newAddr);
    }

    /** `__del__`: only a handle that owns its memory frees it, through `PreDealloc`. */
    method Del(p: Pointer)
      modifies this`events
      ensures p.autoDealloc ==>
                events == old(events) + [Callback("on_dealloc", p.addr), Deallocated(p.addr)]
      ensures !p.autoDealloc ==> events == old(events)
    {
      if p.autoDealloc {
        PreDealloc(p);
      }
    }
  }
}
