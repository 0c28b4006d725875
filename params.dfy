/**
 * Reading the template location from the factory's init parameters, with Java's
 * `String.trim()` written out: it removes every leading and trailing character whose
 * code is at most U+0020.
 */
module Params {
  import opened Wrappers

  /** A value parameter; its value may be null. */
  datatype ValueParam = ValueParam(value: Option<string>)

  /** The value parameters of an `InitParams`, by name. */
  type InitParams = map<string, ValueParam>

  /** A character `String.trim()` removes at either end. */
  predicate IsBlank(c: char) {
    c <= ' '
  }

  ghost predicate AllBlank(s: string) {
    forall i :: 0 <= i < |s| ==> IsBlank(s[i])
  }

  /** `s` with its leading blanks removed. */
  function TrimStart(s: string): (r: string)
    ensures |r| <= |s| && r == s[|s| - |r|..]
    ensures AllBlank(s[..|s| - |r|])
    ensures r == [] || !IsBlank(r[0])
  {
    if |s| > 0 && IsBlank(s[0]) then
      var r := TrimStart(s[1..]);
      assert s[1..][..|s| - 1 - |r|] == s[1..|s| - |r|];
      r
    else
      s
  }

  /** `s` with its trailing blanks removed. */
  function TrimEnd(s: string): (r: string)
    ensures |r| <= |s| && r == s[..|r|]
    ensures AllBlank(s[|r|..])
    ensures r == [] || !IsBlank(r[|r| - 1])
  {
    if |s| > 0 && IsBlank(s[|s| - 1]) then
      var p := s[..|s| - 1];
      var r := TrimEnd(p);
      assert r == s[..|r|];
      assert AllBlank(s[|r|..]) by {
        forall k | 0 <= k < |s| - |r| ensures IsBlank(s[|r|..][k]) {
          if k < |s| - 1 - |r| { assert s[|r|..][k] == p[|r|..][k]; }
        }
      }
      r
    else
      s
  }

  /** Java's `String.trim()`: the longest slice of `s` that neither starts nor ends with a blank. */
  function Trim(s: string): (r: string)
    ensures exists i ::
      0 <= i <= |s| - |r| && r == s[i..i + |r|] && AllBlank(s[..i]) && AllBlank(s[i + |r|..])
    ensures r == [] || (!IsBlank(r[0]) && !IsBlank(r[|r| - 1]))
  {
    var t := TrimStart(s);
    var r := TrimEnd(t);
    var i := |s| - |t|;
    assert r == s[i..i + |r|];
    assert s[i + |r|..] == t[|r|..];
    r
  }

  /** Trimming leaves nothing exactly when the string is blank throughout. */
  lemma TrimEmptyIffBlank(s: string)
    ensures Trim(s) == [] <==> AllBlank(s)
  {
    var r := Trim(s);
    if r == [] {
      var i :| 0 <= i <= |s| && r == s[i..i] && AllBlank(s[..i]) && AllBlank(s[i..]);
      forall k | 0 <= k < |s| ensures IsBlank(s[k]) {
        if k < i { assert s[..i][k] == s[k]; } else { assert s[i..][k - i] == s[k]; }
      }
    }
  }

  /**
   * `getValueParam`: the trimmed value of the parameter `key`, or `None` when there are no
   * parameters, no such parameter, a null value, or a value that is blank throughout.
   */
  function GetValueParam(params: Option<InitParams>, key: string): (r: Option<string>)
    ensures r.None? <==>
      (|| params.None?
       || key !in params.value
       || params.value[key].value.None?
       || AllBlank(params.value[key].value.value))
    ensures r.Some? ==> r.value == Trim(params.value[key].value.value) && r.value != []
  {
    if params.None? then None
    else if key !in params.value then None
    else
      match params.value[key].value
      case None => None
      case Some(v) =>
        var trimmed := Trim(v);
        TrimEmptyIffBlank(v);
        if |trimmed| == 0 then None else Some(trimmed)
  }
}
