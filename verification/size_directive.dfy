/**
 * Operand-size directives of Intel-syntax memory operands. Each memory-operand
 * printer of the Intel printer is named after the access type it prints
 * (printi8mem ... printf128mem) and writes a fixed keyword before the address.
 */
module SizeDirective {
  import opened Wrappers

  /** The access type a memory-operand printer is declared for. */
  datatype MemKind = I8 | I16 | I32 | I64 | I128 | F32 | F64 | F128

  /** The widths, in bits, that a memory access can be declared with. */
  predicate IsAccessWidth(w: nat) {
    w == 8 || w == 16 || w == 32 || w == 64 || w == 128
  }

  /** The declared width, in bits, of an access of kind k. */
  function BitWidth(k: MemKind): (w: nat)
    ensures IsAccessWidth(w)
  {
    match k
    case I8 => 8
    case I16 => 16
    case I32 | F32 => 32
    case I64 | F64 => 64
    case I128 | F128 => 128
  }

  predicate IsFloat(k: MemKind) {
    k.F32? || k.F64? || k.F128?
  }

  /** The text that closes every size keyword. */
  const PtrSuffix: string := " PTR "

  /** The size keyword the printer for k writes in front of the memory reference. */
  function SizeKeyword(k: MemKind): (kw: string)
    ensures |PtrSuffix| < |kw| && kw[|kw| - |PtrSuffix|..] == PtrSuffix
  {
    match k
    case I8 => "BYTE PTR "
    case I16 => "WORD PTR "
    case I32 | F32 => "DWORD PTR "
    case I64 | F64 => "QWORD PTR "
    case I128 | F128 => "XMMWORD PTR "
  }

  /** The integer kind of the same width as k: the one kind per width a reader reports. */
  function IntegerKind(k: MemKind): (i: MemKind)
    ensures !IsFloat(i) && BitWidth(i) == BitWidth(k)
  {
    match k
    case F32 => I32
    case F64 => I64
    case F128 => I128
    case _ => k
  }

  /** One kind per width, in the order a reader tries their keywords. */
  const IntegerKinds: seq<MemKind> := [I8, I16, I32, I64, I128]

  /**
   * The first kind of `kinds` whose keyword begins s, with the text after that
   * keyword; None when no keyword of `kinds` begins s.
   */
  function MatchKeyword(s: string, kinds: seq<MemKind>): (r: Option<(MemKind, string)>)
    ensures r.Some? ==> r.value.0 in kinds && s == SizeKeyword(r.value.0) + r.value.1
    ensures r.None? ==> forall i :: 0 <= i < |kinds| ==> !(SizeKeyword(kinds[i]) <= s)
    decreases |kinds|
  {
    if kinds == [] then None
    else if SizeKeyword(kinds[0]) <= s then Some((kinds[0], s[|SizeKeyword(kinds[0])|..]))
    else MatchKeyword(s, kinds[1..])
  }

  /**
   * Reads a size directive off the front of printed text: the (integer) kind
   * whose keyword begins s and the text after it, or None when s does not
   * begin with any size keyword.
   */
  function ReadSizeDirective(s: string): (r: Option<(MemKind, string)>)
    ensures r.Some? ==> !IsFloat(r.value.0) && s == SizeKeyword(r.value.0) + r.value.1
    ensures r.None? ==> forall k :: !(SizeKeyword(k) <= s)
  {
    var r := MatchKeyword(s, IntegerKinds);
    assert r.None? ==> forall k :: !(SizeKeyword(k) <= s) by {
      forall k | r.None? ensures !(SizeKeyword(k) <= s) {
        var i := IntegerKind(k);
        assert SizeKeyword(k) == SizeKeyword(i);
        assert i == IntegerKinds[BitWidthIndex(i)];
      }
    }
    r
  }

  /** The position of an integer kind in IntegerKinds. */
  function BitWidthIndex(k: MemKind): (n: nat)
    requires !IsFloat(k)
    ensures n < |IntegerKinds| && IntegerKinds[n] == k
  {
    match k
    case I8 => 0
    case I16 => 1
    case I32 => 2
    case I64 => 3
    case I128 => 4
  }

  /** Keywords of different widths already differ in their first letter. */
  lemma FirstLetterGivesWidth(k1: MemKind, k2: MemKind)
    ensures SizeKeyword(k1)[0] == SizeKeyword(k2)[0] ==> BitWidth(k1) == BitWidth(k2)
  {
  }

  /**
   * The text any memory-operand printer writes, its keyword followed by
   * whatever the address printer wrote, reads back as the declared width and
   * exactly that address text.
   */
  lemma {:induction false} ReadBackSizeKeyword(k: MemKind, rest: string)
    ensures ReadSizeDirective(SizeKeyword(k) + rest) == Some((IntegerKind(k), rest))
  {
    var s := SizeKeyword(k) + rest;
    var i := IntegerKind(k);
    var n := BitWidthIndex(i);
    forall j | 0 <= j < n ensures !(SizeKeyword(IntegerKinds[j]) <= s) {
      FirstLetterGivesWidth(IntegerKinds[j], k);
      assert s[0] == SizeKeyword(k)[0];
    }
    MatchSkipsNonPrefixes(s, IntegerKinds, n);
    assert SizeKeyword(i) == SizeKeyword(k);
    assert s[|SizeKeyword(k)|..] == rest;
  }

  /** MatchKeyword passes over the leading kinds whose keywords do not begin s. */
  lemma {:induction false} MatchSkipsNonPrefixes(s: string, kinds: seq<MemKind>, n: nat)
    requires n < |kinds|
    requires forall j :: 0 <= j < n ==> !(SizeKeyword(kinds[j]) <= s)
    requires SizeKeyword(kinds[n]) <= s
    ensures MatchKeyword(s, kinds) == Some((kinds[n], s[|SizeKeyword(kinds[n])|..]))
  {
    if n > 0 {
      MatchSkipsNonPrefixes(s, kinds[1..], n - 1);
    }
  }

  /**
   * Two printers write the same keyword exactly when they are declared with
   * the same width: integer and floating-point printers of one width agree,
   * and the width can be told from the keyword.
   */
  lemma SameKeywordIffSameWidth(k1: MemKind, k2: MemKind)
    ensures SizeKeyword(k1) == SizeKeyword(k2) <==> BitWidth(k1) == BitWidth(k2)
  {
  }
}
