/**
 * request/params.go: path and query parameters as text, with typed accessors that reject
 * an empty parameter and text that is not a base-10 integer of the requested width.
 */
module Params {
  import opened Util
  import opened Text

  /** A raw parameter value. */
  type Param = string

  /** The error an accessor returns, known by its message. */
  datatype ParamError = ParamError(message: string)

  const EmptyParameter := ParamError("empty parameter")
  const InvalidNumber := ParamError("parameter must be a valid number")

  /**
   * `integer[T](p, size)`: empty text is one error, text `strconv.ParseInt` refuses (not a
   * decimal, or out of range for `size` bits) is the other; both come with the value 0.
   */
  function Integer(p: Param, size: BitSize): (r: (int, Option<ParamError>))
    ensures p == "" ==> r == (0, Some(EmptyParameter))
    ensures p != "" && ParseInt(p, size).None? ==> r == (0, Some(InvalidNumber))
    ensures r.1.None? <==> ParseInt(p, size).Some?
    ensures r.1.None? ==> ParseInt(p, size) == Some(r.0) && MinInt(size) <= r.0 <= MaxInt(size)
  {
    if p == "" then (0, Some(EmptyParameter))
    else match ParseInt(p, size)
      case None => (0, Some(InvalidNumber))
      case Some(i) => (i, None)
  }

  /** Every in-range value, written in decimal, reads back as itself with no error. */
  lemma IntegerOfDecimal(v: int, size: BitSize)
    requires MinInt(size) <= v <= MaxInt(size)
    ensures Integer(IntToDecimal(v), size) == (v, None)
  {
    ParseFormattedInt(v, size);
  }

  /** 127 is the largest `int8`; 128 is refused as not a valid number. */
  lemma Int8Bounds()
    ensures Int8("127") == (127, None)
    ensures Int8("128") == (0, Some(InvalidNumber))
    ensures Int8("-128") == (-128, None)
  {
    assert "127"[..2] == "12" && "128"[..2] == "12" && "12"[..1] == "1" && "1"[..0] == "";
    assert DigitsValue("12") == 12;
    assert DigitsValue("127") == 127 && DigitsValue("128") == 128;
    assert "-128"[1..] == "128";
  }

  function Int64(p: Param): (r: (int, Option<ParamError>))
    ensures r.1.None? <==> ParseInt(p, 64).Some?
    ensures r.1.None? ==> ParseInt(p, 64) == Some(r.0)
    ensures r.1.None? ==> -0x8000_0000_0000_0000 <= r.0 <= 0x7fff_ffff_ffff_ffff
    ensures r.1.Some? ==> r.0 == 0
    ensures p == "" ==> r.1 == Some(EmptyParameter)
    ensures p != "" && r.1.Some? ==> r.1 == Some(InvalidNumber)
  {
    Integer(p, 64)
  }

  function Int32(p: Param): (r: (int, Option<ParamError>))
    ensures r.1.None? <==> ParseInt(p, 32).Some?
    ensures r.1.None? ==> ParseInt(p, 32) == Some(r.0)
    ensures r.1.None? ==> -0x8000_0000 <= r.0 <= 0x7fff_ffff
    ensures r.1.Some? ==> r.0 == 0
    ensures p == "" ==> r.1 == Some(EmptyParameter)
    ensures p != "" && r.1.Some? ==> r.1 == Some(InvalidNumber)
  {
    Integer(p, 32)
  }

  function Int16(p: Param): (r: (int, Option<ParamError>))
    ensures r.1.None? <==> ParseInt(p, 16).Some?
    ensures r.1.None? ==> ParseInt(p, 16) == Some(r.0)
    ensures r.1.None? ==> -0x8000 <= r.0 <= 0x7fff
    ensures r.1.Some? ==> r.0 == 0
    ensures p == "" ==> r.1 == Some(EmptyParameter)
    ensures p != "" && r.1.Some? ==> r.1 == Some(InvalidNumber)
  {
    Integer(p, 16)
  }

  function Int8(p: Param): (r: (int, Option<ParamError>))
    ensures r.1.None? <==> ParseInt(p, 8).Some?
    ensures r.1.None? ==> ParseInt(p, 8) == Some(r.0)
    ensures r.1.None? ==> -0x80 <= r.0 <= 0x7f
    ensures r.1.Some? ==> r.0 == 0
    ensures p == "" ==> r.1 == Some(EmptyParameter)
    ensures p != "" && r.1.Some? ==> r.1 == Some(InvalidNumber)
  {
    Integer(p, 8)
  }

  /** `Int` parses with 64 bits, the width of Go's `int` on 64-bit platforms. */
  function Int(p: Param): (r: (int, Option<ParamError>))
    ensures r == Int64(p)
  {
    Integer(p, 64)
  }

  /** `String`: an empty parameter is an error, anything else is returned unchanged. */
  function String(p: Param): (r: (string, Option<ParamError>))
    ensures p == "" ==> r == ("", Some(EmptyParameter))
    ensures p != "" ==> r == (p, None)
  {
    if p == "" then ("", Some(EmptyParameter)) else (p, None)
  }

  /** `PathParams`: one entry per requested name, holding what the router matched for it. */
  method PathParams(lookup: string -> string, names: seq<string>) returns (params: map<string, Param>)
    ensures params.Keys == set n | n in names
    ensures forall n :: n in params ==> params[n] == lookup(n)
  {
    params := map[];
    for i := 0 to |names|
      invariant params.Keys == set n | n in names[..i]
      invariant forall n :: n in params ==> params[n] == lookup(n)
    {
      params := params[names[i] := lookup(names[i])];
      assert names[..i + 1] == names[..i] + [names[i]];
    }
    assert names[..|names|] == names;
  }

  /**
   * `QueryParams`: only the requested names present in the query string, each with its first
   * value (the query parser never stores a name with no value).
   */
  method QueryParams(query: map<string, seq<string>>, names: seq<string>) returns (params: map<string, Param>)
    requires forall k :: k in query ==> |query[k]| > 0
    ensures params.Keys == set n | n in names && n in query
    ensures forall n :: n in params ==> params[n] == query[n][0]
  {
    params := map[];
    for i := 0 to |names|
      invariant params.Keys == set n | n in names[..i] && n in query
      invariant forall n :: n in params ==> n in query && params[n] == query[n][0]
    {
      if names[i] in query {
        params := params[names[i] := query[names[i]][0]];
      }
      assert names[..i + 1] == names[..i] + [names[i]];
    }
    assert names[..|names|] == names;
  }
}
