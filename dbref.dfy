/** `dbref(inp, reqhash)`: reading a database reference "#N" (or "N") into
    its positive integer. */
module Dbrefs {
  import opened Wrappers
  import opened Text

  /** The argument's dynamic type, as far as `dbref` looks at it. */
  datatype Input = Str(s: string) | Int(i: int) | Other

  /** `int(t)` when `t.isdigit()`. */
  function ReadDigits(t: string): Option<nat> {
    if IsDigitString(t) then Some(DigitsValue(t)) else None
  }

  /** A string read with every leading "#" stripped, kept only when positive. */
  function Positive(t: string): (r: Option<int>)
    ensures r.Some? ==> r.value > 0
  {
    var n := ReadDigits(LStripChar(t, '#'));
    if n.Some? && n.value > 0 then Some(n.value) else None
  }

  /** `dbref(inp, reqhash)`. */
  function Dbref(inp: Input, reqhash: bool): Option<int> {
    if reqhash then
      if inp.Str? && |inp.s| > 0 && inp.s[0] == '#' then Positive(inp.s) else None
    else if inp.Str? then Positive(inp.s)
    else if inp.Int? then Some(inp.i)
    else None
  }

  /** Whatever a string reads as is strictly positive, and requiring the hash
      only ever refuses more. */
  lemma StringDbrefIsPositive(s: string)
    ensures Dbref(Str(s), true).Some? ==> Dbref(Str(s), true).value > 0
    ensures Dbref(Str(s), false).Some? ==> Dbref(Str(s), false).value > 0
    ensures Dbref(Str(s), true).Some? ==> Dbref(Str(s), false) == Dbref(Str(s), true)
  {
  }

  /** Without the hash required, a string's "#" is optional, and an integer is
      returned as it is, whatever its sign. */
  lemma DbrefWithoutHash(inp: Input)
    ensures inp.Int? ==> Dbref(inp, false) == Some(inp.i)
    ensures inp.Other? ==> Dbref(inp, false) == None
    ensures inp.Str? ==> Dbref(inp, false) == Dbref(Str("#" + LStripChar(inp.s, '#')), true)
  {
    if inp.Str? {
      var t := LStripChar(inp.s, '#');
      LStripCharSpec(inp.s, '#');
      var h := "#" + t;
      assert h[1..] == t;
      assert LStripChar(t, '#') == t;
      assert LStripChar(h, '#') == t;
    }
  }

  /** "#N" and "N" read back as N for every positive N, and any number of extra
      leading "#" are ignored. */
  lemma {:induction false} DbrefRoundTrip(n: nat, hashes: nat)
    requires n > 0
    ensures Dbref(Str(seq(hashes + 1, _ => '#') + Decimal(n)), true) == Some(n)
    ensures Dbref(Str(Decimal(n)), false) == Some(n)
  {
    DecimalRoundTrip(n);
    var d := Decimal(n);
    assert d[0] != '#' by {
      assert IsDigit(d[0]);
    }
    HashesStrip(hashes + 1, d);
    assert LStripChar(d, '#') == d;
  }

  /** Stripping a run of "#" in front of a text that does not start with "#". */
  lemma {:induction false} HashesStrip(k: nat, d: string)
    requires d == [] || d[0] != '#'
    ensures LStripChar(seq(k, _ => '#') + d, '#') == d
  {
    if k > 0 {
      var s := seq(k, _ => '#') + d;
      assert s[0] == '#';
      assert s[1..] == seq(k - 1, _ => '#') + d;
      HashesStrip(k - 1, d);
    } else {
      assert seq(k, _ => '#') + d == d;
    }
  }

  /** "#0", "#", "12" and "#-3" are refused when the hash is required. */
  lemma RefusedWithHash()
    ensures Dbref(Str("#0"), true) == None
    ensures Dbref(Str("#"), true) == None
    ensures Dbref(Str("12"), true) == None
    ensures Dbref(Str("#-3"), true) == None
  {
    assert LStripChar("#0", '#') == "0" by {
      assert "#0"[1..] == "0";
    }
    assert DigitsValue("0") == 0 by {
      assert "0"[..0] == [];
    }
    assert LStripChar("#", '#') == "" by {
      assert "#"[1..] == "";
    }
    assert LStripChar("#-3", '#') == "-3" by {
      assert "#-3"[1..] == "-3";
    }
    assert !IsDigit("-3"[0]);
  }

  /** "##5" reads as 5; 0 passes as an integer when the hash is not required,
      and no integer passes when it is. */
  lemma AcceptedExamples()
    ensures Dbref(Str("##5"), true) == Some(5)
    ensures Dbref(Int(0), false) == Some(0)
    ensures forall i :: Dbref(Int(i), true) == None
  {
    assert LStripChar("##5", '#') == "5" by {
      assert "##5"[1..] == "#5";
      assert "#5"[1..] == "5";
    }
    assert DigitsValue("5") == 5 by {
      assert "5"[..0] == [];
    }
  }
}
