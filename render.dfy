/** Text forms of operands and of the destination-mask suffix. */
module Render {
  import opened Words
  import opened Fields
  import opened Wrappers

  predicate IsDigit(c: char)
  {
    '0' <= c <= '9'
  }

  predicate AllDigits(s: string)
  {
    forall i :: 0 <= i < |s| ==> IsDigit(s[i])
  }

  function DigitChar(d: int): (c: char)
    requires 0 <= d < 10
    ensures IsDigit(c) && c as int - '0' as int == d
  {
    ('0' as int + d) as char
  }

  /** A number in decimal, as "%d" writes it: digits only, and no leading zero. */
  function Decimal(n: nat): (s: string)
    ensures |s| >= 1 && AllDigits(s)
    ensures |s| > 1 ==> s[0] != '0'
    decreases n
  {
    if n < 10 then [DigitChar(n)] else Decimal(n / 10) + [DigitChar(n % 10)]
  }

  /** The number a string of digits stands for. */
  function ParseDecimal(s: string): nat
    requires AllDigits(s)
    decreases |s|
  {
    if |s| == 0 then 0 else ParseDecimal(s[..|s| - 1]) * 10 + (s[|s| - 1] as int - '0' as int)
  }

  /** Reading back the decimal text of a number gives the number. */
  lemma {:induction false} DecimalRoundTrip(n: nat)
    ensures ParseDecimal(Decimal(n)) == n
    decreases n
  {
    if n >= 10 {
      var s := Decimal(n);
      assert s[..|s| - 1] == Decimal(n / 10);
      DecimalRoundTrip(n / 10);
    }
  }

  /** The lane letter of a 2-bit selector; a larger selector has none (the source's
      four-element list would be indexed out of range). */
  function DecodeRegField(val: bv16): (c: Option<char>)
    ensures c.Some? <==> val < 4
    ensures c.Some? ==> c.value == "xyzw"[val as int]
  {
    if val == 0 then Some('x')
    else if val == 1 then Some('y')
    else if val == 2 then Some('z')
    else if val == 3 then Some('w')
    else None
  }

  /** The character with a given code. Codes 0xD800 to 0xDFFF are not characters. */
  function CodeChar(code: bv16): char
  {
    if code < 0xD800 || code >= 0xE000 then (code as int) as char else '\U{FFFD}'
  }

  /** The text of an operand register, chosen by its class: "$vf" or "$vi" with the
      register number, "$vf" with number and lane for a lane-selected register, "$"
      with the letter of a control register, "UNK" for any other class. None when the
      lane selector is out of range. */
  function GetRegister(specval: int, reg: bv16): (r: Option<string>)
    ensures r.None? <==> specval == VfRegWithF && DecodeRegField(reg >> 8).None?
    ensures r.Some? ==> r.value == "UNK" || (|r.value| >= 2 && r.value[0] == '$')
    ensures r.Some? && specval == VfRegWithF ==> r.value[|r.value| - 2] == '.' && r.value[|r.value| - 1] in "xyzw"
  {
    if specval == VfReg then Some("$vf" + Decimal(reg as int))
    else if specval == ViReg then Some("$vi" + Decimal(reg as int))
    else if specval == VfRegWithF then
      match DecodeRegField(reg >> 8)
      case None => None
      case Some(c) => Some("$vf" + Decimal((reg & 0xFF) as int) + "." + [c])
    else if specval == CtlReg then Some("$" + [CodeChar(reg)])
    else Some("UNK")
  }

  /** What an operand names, independent of how it is written. */
  datatype RegisterName =
    | VectorFloat(n: nat)
    | VectorInteger(n: nat)
    | VectorFloatLane(n: nat, lane: char)
    | ControlRegister(letter: char)
    | Unknown

  /** The register an operand of a class names. */
  function Denotes(specval: int, reg: bv16): Option<RegisterName>
  {
    if specval == VfReg then Some(VectorFloat(reg as int))
    else if specval == ViReg then Some(VectorInteger(reg as int))
    else if specval == VfRegWithF then
      match DecodeRegField(reg >> 8)
      case None => None
      case Some(c) => Some(VectorFloatLane((reg & 0xFF) as int, c))
    else if specval == CtlReg then Some(ControlRegister(CodeChar(reg)))
    else Some(Unknown)
  }

  /** A reader for register text, independent of the renderer. */
  function ParseRegister(s: string): Option<RegisterName>
  {
    if s == "UNK" then Some(Unknown)
    else if |s| == 2 && s[0] == '$' then Some(ControlRegister(s[1]))
    else if |s| >= 4 && s[..3] == "$vi" && AllDigits(s[3..]) then
      Some(VectorInteger(ParseDecimal(s[3..])))
    else if |s| >= 4 && s[..3] == "$vf" && AllDigits(s[3..]) then
      Some(VectorFloat(ParseDecimal(s[3..])))
    else if |s| >= 6 && s[..3] == "$vf" && s[|s| - 2] == '.' && AllDigits(s[3..|s| - 2]) then
      Some(VectorFloatLane(ParseDecimal(s[3..|s| - 2]), s[|s| - 1]))
    else None
  }

  /** The renderer fails exactly on a lane-selected register whose selector, bits 15..8
      of the register field, is 4 or more. */
  lemma GetRegisterFails(specval: int, reg: bv16)
    ensures GetRegister(specval, reg).None? <==> specval == VfRegWithF && reg >> 8 >= 4
  {
  }

  /** The rendered text reads back as the register the operand names, so no two
      different registers share a text. */
  lemma RegisterRoundTrip(specval: int, reg: bv16)
    requires GetRegister(specval, reg).Some?
    ensures Denotes(specval, reg).Some?
    ensures ParseRegister(GetRegister(specval, reg).value) == Denotes(specval, reg)
  {
    if specval == VfReg {
      NumberedRoundTrip("$vf", reg as int);
    } else if specval == ViReg {
      NumberedRoundTrip("$vi", reg as int);
    } else if specval == VfRegWithF {
      LaneRoundTrip((reg & 0xFF) as int, DecodeRegField(reg >> 8).value);
    }
  }

  lemma NumberedRoundTrip(prefix: string, n: nat)
    requires prefix == "$vf" || prefix == "$vi"
    ensures var s := prefix + Decimal(n);
      |s| >= 4 && s[..3] == prefix && s[3..] == Decimal(n) && AllDigits(s[3..]) &&
      ParseDecimal(s[3..]) == n
  {
    var s := prefix + Decimal(n);
    assert s[..3] == prefix && s[3..] == Decimal(n);
    DecimalRoundTrip(n);
  }

  lemma LaneRoundTrip(n: nat, c: char)
    ensures ParseRegister("$vf" + Decimal(n) + "." + [c]) == Some(VectorFloatLane(n, c))
  {
    var d := Decimal(n);
    var s := "$vf" + d + "." + [c];
    assert s[..3] == "$vf" && s[3..|s| - 2] == d && s[|s| - 2] == '.' && s[|s| - 1] == c;
    assert s[3..][|d|] == '.';
    assert !AllDigits(s[3..]);
    assert s != "UNK" by {
      assert s[0] == '$';
    }
    DecimalRoundTrip(n);
  }

  /** A register number packed with a lane selector renders as the float register with
      that lane's letter. */
  lemma PackedFieldRenders(n: bv16, f: bv16)
    requires n < 32 && f < 4
    ensures GetRegister(VfRegWithF, PackField(n, f))
         == Some("$vf" + Decimal(n as int) + "." + ["xyzw"[f as int]])
  {
  }

  /** Which lanes a destination mask enables, x first. */
  function Lanes(m: bv32): (on: seq<bool>)
    ensures |on| == 4
  {
    [m & 8 != 0, m & 4 != 0, m & 2 != 0, m & 1 != 0]
  }

  function LaneChar(k: nat): (c: char)
    requires k < 4
    ensures LaneIndex(c) == k
  {
    if k == 0 then 'x' else if k == 1 then 'y' else if k == 2 then 'z' else 'w'
  }

  /** The letters of the enabled lanes from k on, in lane order. */
  function Letters(on: seq<bool>, k: nat): string
    requires |on| == 4 && k <= 4
    decreases 4 - k
  {
    if k == 4 then ""
    else (if on[k] then [LaneChar(k)] else "") + Letters(on, k + 1)
  }

  /** The suffix for a destination mask: a dot, then the letters of the enabled lanes. */
  function DestSuffix(m: bv32): string
  {
    "." + Letters(Lanes(m), 0)
  }

  /** The destination-mask suffix of a word, built one lane at a time from x to w. */
  method DecodeDest(w: Word) returns (s: string)
    ensures s == DestSuffix(DestMask(w))
  {
    var dest := DestMask(w);
    s := ".";
    if (dest >> 3) & 1 != 0 {
      s := s + "x";
    }
    if (dest >> 2) & 1 != 0 {
      s := s + "y";
    }
    if (dest >> 1) & 1 != 0 {
      s := s + "z";
    }
    if dest & 1 != 0 {
      s := s + "w";
    }
  }

  /** The number of enabled lanes from k on. */
  function LanesSet(on: seq<bool>, k: nat): nat
    requires |on| == 4 && k <= 4
    decreases 4 - k
  {
    if k == 4 then 0 else (if on[k] then 1 else 0) + LanesSet(on, k + 1)
  }

  /** One letter per enabled lane. */
  lemma {:induction false} LettersLength(on: seq<bool>, k: nat)
    requires |on| == 4 && k <= 4
    ensures |Letters(on, k)| == LanesSet(on, k)
    decreases 4 - k
  {
    if k < 4 {
      LettersLength(on, k + 1);
    }
  }

  /** The suffix is a dot followed by one letter per enabled lane. */
  lemma DestSuffixLength(m: bv32)
    ensures |DestSuffix(m)| == 1 + LanesSet(Lanes(m), 0)
    ensures DestSuffix(m)[0] == '.'
  {
    LettersLength(Lanes(m), 0);
  }

  /** A mask with no lane enabled gives the bare dot. */
  lemma EmptyMaskIsDot(m: bv32)
    ensures DestSuffix(m) == "." <==> m & 0xF == 0
  {
    LettersLength(Lanes(m), 0);
  }

  /** The position of a lane letter in x, y, z, w order. */
  function LaneIndex(c: char): int
  {
    if c == 'x' then 0 else if c == 'y' then 1 else if c == 'z' then 2 else if c == 'w' then 3 else 4
  }

  /** Every character of s is a lane letter of lane k or later. */
  predicate FromLane(s: string, k: nat)
  {
    forall i :: 0 <= i < |s| ==> k <= LaneIndex(s[i]) < 4
  }

  /** The lane letters of s strictly increase in x, y, z, w order. */
  predicate InLaneOrder(s: string)
  {
    forall i, j :: 0 <= i < j < |s| ==> LaneIndex(s[i]) < LaneIndex(s[j])
  }

  /** The letters from lane k on are lane letters of lane k or later. */
  lemma {:induction false} LettersFromLane(on: seq<bool>, k: nat)
    requires |on| == 4 && k <= 4
    ensures FromLane(Letters(on, k), k)
    decreases 4 - k
  {
    if k < 4 {
      LettersFromLane(on, k + 1);
      var rest := Letters(on, k + 1);
      var s := Letters(on, k);
      var head: string := if on[k] then [LaneChar(k)] else "";
      assert s == head + rest;
      forall i | 0 <= i < |s|
        ensures k <= LaneIndex(s[i]) < 4
      {
        if i >= |head| {
          assert s[i] == rest[i - |head|];
        }
      }
    }
  }

  /** The letters come in lane order, each at most once. */
  lemma {:induction false} LettersOrdered(on: seq<bool>, k: nat)
    requires |on| == 4 && k <= 4
    ensures InLaneOrder(Letters(on, k))
    decreases 4 - k
  {
    if k < 4 {
      LettersOrdered(on, k + 1);
      LettersFromLane(on, k + 1);
      var rest := Letters(on, k + 1);
      var s := Letters(on, k);
      var head: string := if on[k] then [LaneChar(k)] else "";
      assert s == head + rest;
      forall i, j | 0 <= i < j < |s|
        ensures LaneIndex(s[i]) < LaneIndex(s[j])
      {
        assert s[j] == rest[j - |head|];
        if i >= |head| {
          assert s[i] == rest[i - |head|];
        }
      }
    }
  }

  /** Lane j's letter is among the letters from lane k on exactly when j is from k on
      and the mask enables it. */
  lemma {:induction false} LettersContain(on: seq<bool>, k: nat, j: nat)
    requires |on| == 4 && k <= 4 && j < 4
    ensures LaneChar(j) in Letters(on, k) <==> k <= j && on[j]
    decreases 4 - k
  {
    if k < 4 {
      LettersContain(on, k + 1, j);
      var rest := Letters(on, k + 1);
      if on[k] {
        assert Letters(on, k) == [LaneChar(k)] + rest;
      } else {
        assert Letters(on, k) == rest;
      }
    }
  }

  /** The mask a suffix stands for, read off the letters it contains. */
  function MaskOf(s: string): bv32
  {
    (if 'x' in s then 8 else 0) | (if 'y' in s then 4 else 0) |
    (if 'z' in s then 2 else 0) | (if 'w' in s then 1 else 0)
  }

  /** Reading the letters back gives the mask: the suffix loses nothing. */
  lemma SuffixRoundTrip(m: bv32)
    requires m < 16
    ensures MaskOf(DestSuffix(m)[1..]) == m
  {
    assert DestSuffix(m)[1..] == Letters(Lanes(m), 0);
    LettersContain(Lanes(m), 0, 0);
    LettersContain(Lanes(m), 0, 1);
    LettersContain(Lanes(m), 0, 2);
    LettersContain(Lanes(m), 0, 3);
  }
}
