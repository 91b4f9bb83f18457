/**
 * What the client's operations promise: each operation's checks, written as
 * an ordered table whose first failing row decides the error; the exact URL
 * each successful check sends; the boundary and zero behaviour of the
 * coordinate checks; the credential text; and the postcode checks as they
 * are evidently meant to work.
 */
module PostcodeNlProperties {
  import opened Wrappers
  import opened JsStrings
  import opened JsValues
  import opened UrlTemplate
  import opened PostcodeNl

  // ----- Ordered checks, first failure wins -----

  /** One argument check: whether it passes, and what is thrown when it does not. */
  datatype Check = Check(passes: bool, failure: Thrown)

  /** The error of the first check that fails, or None when all pass. */
  function FirstFailure(checks: seq<Check>): Option<Thrown>
    decreases |checks|
  {
    if checks == [] then None
    else if !checks[0].passes then Some(checks[0].failure)
    else FirstFailure(checks[1..])
  }

  /** Every check passes exactly when none is reported. */
  lemma {:induction false} FirstFailureNone(checks: seq<Check>)
    ensures FirstFailure(checks).None? <==> forall i :: 0 <= i < |checks| ==> checks[i].passes
    decreases |checks|
  {
    if checks != [] {
      FirstFailureNone(checks[1..]);
      assert forall i :: 1 <= i < |checks| ==> checks[i] == checks[1..][i - 1];
    }
  }

  /** When check `k` fails and every earlier one passes, check `k` decides the error. */
  lemma {:induction false} FirstFailureAt(checks: seq<Check>, k: nat)
    requires k < |checks| && !checks[k].passes
    requires forall i :: 0 <= i < k ==> checks[i].passes
    ensures FirstFailure(checks) == Some(checks[k].failure)
    decreases k
  {
    if k > 0 {
      assert checks[1..][k - 1] == checks[k];
      FirstFailureAt(checks[1..], k - 1);
    }
  }

  /** The outcome of a table of checks guarding `request`. */
  function Decide(checks: seq<Check>, request: Request): Result<Request, Thrown> {
    match FirstFailure(checks)
    case None => Success(request)
    case Some(e) => Failure(e)
  }

  // ----- The tables -----

  function MatchExactChecks(city: JsValue, street: JsValue, houseNumber: JsValue): seq<Check> {
    [ Check(Truthy(city), Error(Required("city"))),
      Check(Truthy(street), Error(Required("street"))),
      Check(Truthy(houseNumber), Error(Required("houseNumber"))) ]
  }

  function ViewByRdChecks(rdX: JsValue, rdY: JsValue): seq<Check> {
    [ Check(Truthy(rdX), Error(Required("rdX"))),
      Check(Truthy(rdY), Error(Required("rdY"))),
      Check(!IsNaN(rdX), Error(NotANumber("rdX"))),
      Check(!OutOfRange(ToNumber(rdX), 0, 300000), Error(RdXRange)),
      Check(!IsNaN(rdY), Error(NotANumber("rdY"))),
      Check(!OutOfRange(ToNumber(rdY), 300000, 620000), Error(RdYRange)) ]
  }

  function LatLonChecks(latitude: JsValue, longitude: JsValue): seq<Check> {
    [ Check(Truthy(latitude), Error(Required("latitude"))),
      Check(Truthy(longitude), Error(Required("longitude"))),
      Check(!IsNaN(latitude), Error(NotANumber("latitude"))),
      Check(!IsNaN(longitude), Error(NotANumber("longitude"))) ]
  }

  /** The number the postcode checks test: `parseInt` of the first four characters. */
  function PostcodeNumber(postcode: JsValue): Option<real> {
    if postcode.Str? then OptionReal(ParseInt(Prefix4(postcode.s))) else None
  }

  /**
   * `viewByPostcode` as written: the call of the undefined `isNan` is a row
   * that always fails, and it stands before the number and range rows.
   */
  function ViewByPostcodeChecks(postcode: JsValue, houseNumber: JsValue): seq<Check> {
    [ Check(Truthy(postcode), Error(Required("postcode"))),
      Check(Truthy(houseNumber), Error(Required("houseNumber"))),
      Check(postcode.Str?, TypeError(SubstrMissing)),
      Check(false, ReferenceError(IsNanUndefined)),
      Check(PostcodeNumber(postcode).Some?, Error(PrefixNotANumber)),
      Check(!OutOfRange(PostcodeNumber(postcode), 1000, 9999), Error(PrefixOutOfRange)) ]
  }

  /** `viewByPostcode` with `isNaN`: the same rows without the failing one. */
  function ViewByPostcodeIntendedChecks(postcode: JsValue, houseNumber: JsValue): seq<Check> {
    [ Check(Truthy(postcode), Error(Required("postcode"))),
      Check(Truthy(houseNumber), Error(Required("houseNumber"))),
      Check(postcode.Str?, TypeError(SubstrMissing)),
      Check(PostcodeNumber(postcode).Some?, Error(PrefixNotANumber)),
      Check(!OutOfRange(PostcodeNumber(postcode), 1000, 9999), Error(PrefixOutOfRange)) ]
  }

  function PostcodeRangesChecks(postcode: JsValue): seq<Check> {
    [ Check(Truthy(postcode), Error(Required("postcode"))),
      Check(postcode.Str?, TypeError(SubstrMissing)),
      Check(false, ReferenceError(IsNanUndefined)),
      Check(PostcodeNumber(postcode).Some?, Error(PrefixNotANumber)),
      Check(!OutOfRange(PostcodeNumber(postcode), 1000, 9999), Error(PrefixOutOfRange)) ]
  }

  function PostcodeRangesIntendedChecks(postcode: JsValue): seq<Check> {
    [ Check(Truthy(postcode), Error(Required("postcode"))),
      Check(postcode.Str?, TypeError(SubstrMissing)),
      Check(PostcodeNumber(postcode).Some?, Error(PrefixNotANumber)),
      Check(!OutOfRange(PostcodeNumber(postcode), 1000, 9999), Error(PrefixOutOfRange)) ]
  }

  // ----- Tables of three to six rows, unrolled -----

  lemma Decide3(c0: Check, c1: Check, c2: Check, request: Request)
    ensures Decide([c0, c1, c2], request) ==
      if !c0.passes then Failure(c0.failure)
      else if !c1.passes then Failure(c1.failure)
      else if !c2.passes then Failure(c2.failure)
      else Success(request)
  {
    var cs := [c0, c1, c2];
    if !c0.passes {
      FirstFailureAt(cs, 0);
    } else if !c1.passes {
      FirstFailureAt(cs, 1);
    } else if !c2.passes {
      FirstFailureAt(cs, 2);
    } else {
      FirstFailureNone(cs);
    }
  }

  lemma Decide4(c0: Check, c1: Check, c2: Check, c3: Check, request: Request)
    ensures Decide([c0, c1, c2, c3], request) ==
      if !c0.passes then Failure(c0.failure)
      else if !c1.passes then Failure(c1.failure)
      else if !c2.passes then Failure(c2.failure)
      else if !c3.passes then Failure(c3.failure)
      else Success(request)
  {
    var cs := [c0, c1, c2, c3];
    if !c0.passes {
      FirstFailureAt(cs, 0);
    } else if !c1.passes {
      FirstFailureAt(cs, 1);
    } else if !c2.passes {
      FirstFailureAt(cs, 2);
    } else if !c3.passes {
      FirstFailureAt(cs, 3);
    } else {
      FirstFailureNone(cs);
    }
  }

  lemma Decide5(c0: Check, c1: Check, c2: Check, c3: Check, c4: Check, request: Request)
    ensures Decide([c0, c1, c2, c3, c4], request) ==
      if !c0.passes then Failure(c0.failure)
      else if !c1.passes then Failure(c1.failure)
      else if !c2.passes then Failure(c2.failure)
      else if !c3.passes then Failure(c3.failure)
      else if !c4.passes then Failure(c4.failure)
      else Success(request)
  {
    var cs := [c0, c1, c2, c3, c4];
    if !c0.passes {
      FirstFailureAt(cs, 0);
    } else if !c1.passes {
      FirstFailureAt(cs, 1);
    } else if !c2.passes {
      FirstFailureAt(cs, 2);
    } else if !c3.passes {
      FirstFailureAt(cs, 3);
    } else if !c4.passes {
      FirstFailureAt(cs, 4);
    } else {
      FirstFailureNone(cs);
    }
  }

  lemma Decide6(c0: Check, c1: Check, c2: Check, c3: Check, c4: Check, c5: Check, request: Request)
    ensures Decide([c0, c1, c2, c3, c4, c5], request) ==
      if !c0.passes then Failure(c0.failure)
      else if !c1.passes then Failure(c1.failure)
      else if !c2.passes then Failure(c2.failure)
      else if !c3.passes then Failure(c3.failure)
      else if !c4.passes then Failure(c4.failure)
      else if !c5.passes then Failure(c5.failure)
      else Success(request)
  {
    var cs := [c0, c1, c2, c3, c4, c5];
    if !c0.passes {
      FirstFailureAt(cs, 0);
    } else if !c1.passes {
      FirstFailureAt(cs, 1);
    } else if !c2.passes {
      FirstFailureAt(cs, 2);
    } else if !c3.passes {
      FirstFailureAt(cs, 3);
    } else if !c4.passes {
      FirstFailureAt(cs, 4);
    } else if !c5.passes {
      FirstFailureAt(cs, 5);
    } else {
      FirstFailureNone(cs);
    }
  }

  // ----- Each operation follows its table -----

  lemma MatchExactFollowsChecks(city: JsValue, street: JsValue, houseNumber: JsValue, houseNumberAddition: JsValue)
    ensures MatchExactRequest(city, street, houseNumber, houseNumberAddition) ==
      Decide(MatchExactChecks(city, street, houseNumber), Request(ExactTemplate, [
        ("city", city), ("street", street), ("houseNumber", houseNumber),
        ("houseNumberAddition", WithDefault(houseNumberAddition, Str("")))]))
  {
    var c := MatchExactChecks(city, street, houseNumber);
    Decide3(c[0], c[1], c[2], Request(ExactTemplate, [
        ("city", city), ("street", street), ("houseNumber", houseNumber),
        ("houseNumberAddition", WithDefault(houseNumberAddition, Str("")))]));
  }

  lemma ViewByRdFollowsChecks(rdX: JsValue, rdY: JsValue)
    ensures ViewByRdRequest(rdX, rdY) ==
      Decide(ViewByRdChecks(rdX, rdY), Request(RdTemplate, [("rdX", rdX), ("rdY", rdY)]))
  {
    var c := ViewByRdChecks(rdX, rdY);
    Decide6(c[0], c[1], c[2], c[3], c[4], c[5], Request(RdTemplate, [("rdX", rdX), ("rdY", rdY)]));
  }

  lemma LatLonFollowsChecks(latitude: JsValue, longitude: JsValue)
    ensures LatLonRequest(latitude, longitude) ==
      Decide(LatLonChecks(latitude, longitude),
             Request(LatLonTemplate, [("latitude", latitude), ("longitude", longitude)]))
  {
    var c := LatLonChecks(latitude, longitude);
    Decide4(c[0], c[1], c[2], c[3], Request(LatLonTemplate, [("latitude", latitude), ("longitude", longitude)]));
  }

  /** As written, `viewByPostcode` follows its table with the failing `isNan` row. */
  lemma ViewByPostcodeFollowsChecks(postcode: JsValue, houseNumber: JsValue, houseNumberAddition: JsValue)
    ensures ViewByPostcodeRequest(postcode, houseNumber, houseNumberAddition) ==
      Decide(ViewByPostcodeChecks(postcode, houseNumber), Request(PostcodeTemplate, [
        ("postcode", postcode), ("houseNumber", houseNumber),
        ("houseNumberAddition", WithDefault(houseNumberAddition, Str("")))]))
  {
    var c := ViewByPostcodeChecks(postcode, houseNumber);
    Decide6(c[0], c[1], c[2], c[3], c[4], c[5], Request(PostcodeTemplate, [
        ("postcode", postcode), ("houseNumber", houseNumber),
        ("houseNumberAddition", WithDefault(houseNumberAddition, Str("")))]));
  }

  /** With `isNaN`, `viewByPostcode` follows the same table without that row. */
  lemma ViewByPostcodeIntendedFollowsChecks(postcode: JsValue, houseNumber: JsValue, houseNumberAddition: JsValue)
    ensures ViewByPostcodeRequestIntended(postcode, houseNumber, houseNumberAddition) ==
      Decide(ViewByPostcodeIntendedChecks(postcode, houseNumber), Request(PostcodeTemplate, [
        ("postcode", postcode), ("houseNumber", houseNumber),
        ("houseNumberAddition", WithDefault(houseNumberAddition, Str("")))]))
  {
    var c := ViewByPostcodeIntendedChecks(postcode, houseNumber);
    Decide5(c[0], c[1], c[2], c[3], c[4], Request(PostcodeTemplate, [
        ("postcode", postcode), ("houseNumber", houseNumber),
        ("houseNumberAddition", WithDefault(houseNumberAddition, Str("")))]));
  }

  lemma PostcodeRangesFollowsChecks(postcode: JsValue)
    ensures PostcodeRangesRequest(postcode) ==
      Decide(PostcodeRangesChecks(postcode), Request(RangesTemplate, [("postcode", postcode)]))
  {
    var c := PostcodeRangesChecks(postcode);
    Decide5(c[0], c[1], c[2], c[3], c[4], Request(RangesTemplate, [("postcode", postcode)]));
  }

  lemma PostcodeRangesIntendedFollowsChecks(postcode: JsValue)
    ensures PostcodeRangesRequestIntended(postcode) ==
      Decide(PostcodeRangesIntendedChecks(postcode), Request(RangesTemplate, [("postcode", postcode)]))
  {
    var c := PostcodeRangesIntendedChecks(postcode);
    Decide4(c[0], c[1], c[2], c[3], Request(RangesTemplate, [("postcode", postcode)]));
  }

  // ----- The URLs the operations send -----

  /** A value that passes an `isNaN` check prints without `{` or `$`. */
  lemma NumericInert(v: JsValue)
    requires !IsNaN(v)
    ensures Inert(ToStr(v))
  {
    if v.Str? {
      NumericStringInert(v.s);
    } else if v.Int? {
      IntStringInert(v.n);
    }
  }

  lemma NumericStringInert(s: string)
    requires StringToNumber(s).Some?
    ensures Inert(s)
  {
    NumericStringChars(s);
    assert forall i :: 0 <= i < |s| ==> s[i] != '{' && s[i] != '$';
  }

  lemma IntStringInert(n: int)
    ensures Inert(IntToString(n))
  {
    var d := NatToString(if n < 0 then -n else n);
    assert forall i :: 0 <= i < |d| ==> d[i] != '{' && d[i] != '$';
    if n < 0 {
      assert forall i :: 1 <= i < |"-" + d| ==> ("-" + d)[i] == d[i - 1];
    }
  }

  /** The template and its filling for one parameter between two literal segments. */
  lemma Unroll1(l0: string, l1: string, p0: (string, JsValue))
    ensures Template([l0, l1], [p0]) == l0 + Placeholder(p0.0) + l1
    ensures Filled([l0, l1], [p0]) == l0 + ToStr(p0.1) + l1
  {
    assert [l0, l1][1..] == [l1];
    assert [p0][1..] == [];
  }

  lemma Unroll2(l0: string, l1: string, l2: string, p0: (string, JsValue), p1: (string, JsValue))
    ensures Template([l0, l1, l2], [p0, p1]) == l0 + Placeholder(p0.0) + (l1 + Placeholder(p1.0) + l2)
    ensures Filled([l0, l1, l2], [p0, p1]) == l0 + ToStr(p0.1) + (l1 + ToStr(p1.1) + l2)
  {
    assert [l0, l1, l2][1..] == [l1, l2];
    assert [p0, p1][1..] == [p1];
    Unroll1(l1, l2, p1);
  }

  /** The URL of a template that starts with `/`, filled with inert values between `{`-free segments. */
  lemma FilledUrl(baseUrl: string, lits: seq<string>, params: Params)
    requires |lits| == |params| + 1 && |lits[0]| > 0 && lits[0][0] == '/'
    requires forall i :: 0 <= i < |lits| ==> '{' !in lits[i]
    requires forall i :: 0 <= i < |params| ==> '$' !in ToStr(params[i].1)
    requires forall i :: 0 <= i < |params| - 1 ==> '{' !in ToStr(params[i].1)
    ensures FormattedUrl(baseUrl, Template(lits, params), params) == baseUrl + "/" + Filled(lits, params)[1..]
  {
    FillTemplate(lits, params);
    var f := Filled(lits, params);
    if params == [] {
      assert f == lits[0];
    } else {
      assert f == lits[0] + ToStr(params[0].1) + Filled(lits[1..], params[1..]);
    }
    assert f[0] == lits[0][0];
  }

  lemma Unroll3(l0: string, l1: string, l2: string, l3: string,
                p0: (string, JsValue), p1: (string, JsValue), p2: (string, JsValue))
    ensures Template([l0, l1, l2, l3], [p0, p1, p2]) ==
      l0 + Placeholder(p0.0) + (l1 + Placeholder(p1.0) + (l2 + Placeholder(p2.0) + l3))
    ensures Filled([l0, l1, l2, l3], [p0, p1, p2]) == l0 + ToStr(p0.1) + (l1 + ToStr(p1.1) + (l2 + ToStr(p2.1) + l3))
  {
    assert [l0, l1, l2, l3][1..] == [l1, l2, l3];
    assert [p0, p1, p2][1..] == [p1, p2];
    Unroll2(l1, l2, l3, p1, p2);
  }

  lemma Unroll4(l0: string, l1: string, l2: string, l3: string, l4: string,
                p0: (string, JsValue), p1: (string, JsValue), p2: (string, JsValue), p3: (string, JsValue))
    ensures Template([l0, l1, l2, l3, l4], [p0, p1, p2, p3]) ==
      l0 + Placeholder(p0.0) + (l1 + Placeholder(p1.0) + (l2 + Placeholder(p2.0) + (l3 + Placeholder(p3.0) + l4)))
    ensures Filled([l0, l1, l2, l3, l4], [p0, p1, p2, p3]) ==
      l0 + ToStr(p0.1) + (l1 + ToStr(p1.1) + (l2 + ToStr(p2.1) + (l3 + ToStr(p3.1) + l4)))
  {
    assert [l0, l1, l2, l3, l4][1..] == [l1, l2, l3, l4];
    assert [p0, p1, p2, p3][1..] == [p1, p2, p3];
    Unroll3(l1, l2, l3, l4, p1, p2, p3);
  }

  /**
   * The URL of a `/`-rooted template with one placeholder at its end: with
   * nothing after the placeholder, only a `$` in the value could change it.
   */
  lemma OneParamUrl(baseUrl: string, l0: string, p0: (string, JsValue))
    requires |l0| > 0 && l0[0] == '/' && '{' !in l0 && '$' !in ToStr(p0.1)
    ensures FormattedUrl(baseUrl, l0 + Placeholder(p0.0), [p0]) == baseUrl + l0 + ToStr(p0.1)
  {
    var p, v := Placeholder(p0.0), ToStr(p0.1);
    assert l0 + p + "" == l0 + p && l0 + v + "" == l0 + v;
    ReplaceFirstInPlace(l0, p, "", v);
    assert [p0][1..] == [];
    assert SubstituteAll(l0 + p, [p0]) == l0 + v;
    assert (l0 + v)[0] == '/';
    DropFirst(baseUrl, l0, v);
    assert baseUrl + (l0 + v) == baseUrl + l0 + v;
  }

  /** The URL of a `/`-rooted template with two placeholders, for inert values. */
  lemma TwoParamUrl(baseUrl: string, l0: string, l1: string, p0: (string, JsValue), p1: (string, JsValue))
    requires |l0| > 0 && l0[0] == '/' && '{' !in l0 && '{' !in l1
    requires Inert(ToStr(p0.1)) && '$' !in ToStr(p1.1)
    ensures FormattedUrl(baseUrl, l0 + Placeholder(p0.0) + l1 + Placeholder(p1.0), [p0, p1]) ==
      baseUrl + l0 + ToStr(p0.1) + l1 + ToStr(p1.1)
  {
    var lits, ps := [l0, l1, ""], [p0, p1];
    Unroll2(l0, l1, "", p0, p1);
    assert Template(lits, ps) == l0 + Placeholder(p0.0) + l1 + Placeholder(p1.0);
    FilledUrl(baseUrl, lits, ps);
    DropFirst2(baseUrl, l0, ToStr(p0.1), l1, ToStr(p1.1));
  }

  /** The URL of a `/`-rooted template with four placeholders, each after its own literal segment. */
  lemma FourParamUrl(baseUrl: string, l0: string, l1: string, l2: string, l3: string,
                     p0: (string, JsValue), p1: (string, JsValue), p2: (string, JsValue), p3: (string, JsValue))
    requires |l0| > 0 && l0[0] == '/' && '{' !in l0 && '{' !in l1 && '{' !in l2 && '{' !in l3
    requires Inert(ToStr(p0.1)) && Inert(ToStr(p1.1)) && Inert(ToStr(p2.1)) && '$' !in ToStr(p3.1)
    ensures FormattedUrl(baseUrl, l0 + Placeholder(p0.0) + l1 + Placeholder(p1.0) + l2 + Placeholder(p2.0)
                                  + l3 + Placeholder(p3.0), [p0, p1, p2, p3]) ==
      baseUrl + l0 + ToStr(p0.1) + l1 + ToStr(p1.1) + l2 + ToStr(p2.1) + l3 + ToStr(p3.1)
  {
    var lits, ps := [l0, l1, l2, l3, ""], [p0, p1, p2, p3];
    FourParamTemplate(l0, l1, l2, l3, p0, p1, p2, p3);
    FilledUrl(baseUrl, lits, ps);
    FourParamFilled(baseUrl, l0, l1, l2, l3, p0, p1, p2, p3);
  }

  lemma FourParamTemplate(l0: string, l1: string, l2: string, l3: string,
                          p0: (string, JsValue), p1: (string, JsValue), p2: (string, JsValue), p3: (string, JsValue))
    ensures Template([l0, l1, l2, l3, ""], [p0, p1, p2, p3]) ==
      l0 + Placeholder(p0.0) + l1 + Placeholder(p1.0) + l2 + Placeholder(p2.0) + l3 + Placeholder(p3.0)
  {
    Unroll4(l0, l1, l2, l3, "", p0, p1, p2, p3);
    Nest4(l0, Placeholder(p0.0), l1, Placeholder(p1.0), l2, Placeholder(p2.0), l3, Placeholder(p3.0));
  }

  lemma FourParamFilled(baseUrl: string, l0: string, l1: string, l2: string, l3: string,
                        p0: (string, JsValue), p1: (string, JsValue), p2: (string, JsValue), p3: (string, JsValue))
    requires |l0| > 0 && l0[0] == '/'
    ensures baseUrl + "/" + Filled([l0, l1, l2, l3, ""], [p0, p1, p2, p3])[1..] ==
      baseUrl + l0 + ToStr(p0.1) + l1 + ToStr(p1.1) + l2 + ToStr(p2.1) + l3 + ToStr(p3.1)
  {
    Unroll4(l0, l1, l2, l3, "", p0, p1, p2, p3);
    var v0, v1, v2, v3 := ToStr(p0.1), ToStr(p1.1), ToStr(p2.1), ToStr(p3.1);
    Nest4(l0, v0, l1, v1, l2, v2, l3, v3);
    DropFirst(baseUrl, l0, v0 + l1 + v1 + l2 + v2 + l3 + v3);
    Nest4(baseUrl + l0, v0, l1, v1, l2, v2, l3, v3);
  }

  /** The URL of a `/`-rooted template with three placeholders, each after its own literal segment. */
  lemma ThreeParamUrl(baseUrl: string, l0: string, l1: string, l2: string,
                      p0: (string, JsValue), p1: (string, JsValue), p2: (string, JsValue))
    requires |l0| > 0 && l0[0] == '/' && '{' !in l0 && '{' !in l1 && '{' !in l2
    requires Inert(ToStr(p0.1)) && Inert(ToStr(p1.1)) && '$' !in ToStr(p2.1)
    ensures FormattedUrl(baseUrl, l0 + Placeholder(p0.0) + l1 + Placeholder(p1.0) + l2 + Placeholder(p2.0),
                         [p0, p1, p2]) ==
      baseUrl + l0 + ToStr(p0.1) + l1 + ToStr(p1.1) + l2 + ToStr(p2.1)
  {
    var lits, ps := [l0, l1, l2, ""], [p0, p1, p2];
    ThreeParamTemplate(l0, l1, l2, p0, p1, p2);
    FilledUrl(baseUrl, lits, ps);
    ThreeParamFilled(baseUrl, l0, l1, l2, p0, p1, p2);
  }

  lemma ThreeParamTemplate(l0: string, l1: string, l2: string,
                           p0: (string, JsValue), p1: (string, JsValue), p2: (string, JsValue))
    ensures Template([l0, l1, l2, ""], [p0, p1, p2]) ==
      l0 + Placeholder(p0.0) + l1 + Placeholder(p1.0) + l2 + Placeholder(p2.0)
  {
    Unroll3(l0, l1, l2, "", p0, p1, p2);
    Nest3(l0, Placeholder(p0.0), l1, Placeholder(p1.0), l2, Placeholder(p2.0));
  }

  lemma ThreeParamFilled(baseUrl: string, l0: string, l1: string, l2: string,
                         p0: (string, JsValue), p1: (string, JsValue), p2: (string, JsValue))
    requires |l0| > 0 && l0[0] == '/'
    ensures baseUrl + "/" + Filled([l0, l1, l2, ""], [p0, p1, p2])[1..] ==
      baseUrl + l0 + ToStr(p0.1) + l1 + ToStr(p1.1) + l2 + ToStr(p2.1)
  {
    Unroll3(l0, l1, l2, "", p0, p1, p2);
    var v0, v1, v2 := ToStr(p0.1), ToStr(p1.1), ToStr(p2.1);
    Nest3(l0, v0, l1, v1, l2, v2);
    DropFirst(baseUrl, l0, v0 + l1 + v1 + l2 + v2);
    Nest3(baseUrl + l0, v0, l1, v1, l2, v2);
  }

  lemma Nest3(a0: string, a1: string, a2: string, a3: string, a4: string, a5: string)
    ensures a0 + a1 + (a2 + a3 + (a4 + a5 + "")) == a0 + a1 + a2 + a3 + a4 + a5
    ensures a0 + (a1 + a2 + a3 + a4 + a5) == a0 + a1 + a2 + a3 + a4 + a5
  {
  }

  lemma Nest4(a0: string, a1: string, a2: string, a3: string, a4: string, a5: string, a6: string, a7: string)
    ensures a0 + a1 + (a2 + a3 + (a4 + a5 + (a6 + a7 + ""))) == a0 + a1 + a2 + a3 + a4 + a5 + a6 + a7
    ensures a0 + (a1 + a2 + a3 + a4 + a5 + a6 + a7) == a0 + a1 + a2 + a3 + a4 + a5 + a6 + a7
  {
  }

  lemma DropFirst(b: string, l: string, rest: string)
    requires |l| > 0 && l[0] == '/'
    ensures b + "/" + (l + rest)[1..] == b + (l + rest)
  {
    assert (l + rest)[1..] == l[1..] + rest;
    assert "/" + l[1..] == l;
  }

  lemma DropFirst2(b: string, l0: string, v0: string, l1: string, v1: string)
    requires |l0| > 0 && l0[0] == '/'
    ensures b + "/" + (l0 + v0 + (l1 + v1 + ""))[1..] == b + l0 + v0 + l1 + v1
  {
    assert l0 + v0 + (l1 + v1 + "") == l0 + (v0 + l1 + v1);
    assert "/" + l0[1..] == l0;
  }

  lemma RdTemplateShape()
    ensures RdTemplate == "/addresses/rd/" + Placeholder("rdX") + "/" + Placeholder("rdY")
    ensures '{' !in "/addresses/rd/" && '{' !in "/"
  {
  }

  /**
   * A request `viewByRd` lets through is sent to the base URL followed by
   * `/addresses/rd/`, the two coordinates as strings, and a slash between them.
   */
  lemma ViewByRdUrl(baseUrl: string, rdX: JsValue, rdY: JsValue)
    requires ViewByRdRequest(rdX, rdY).Success?
    ensures FormattedUrl(baseUrl, RdTemplate, [("rdX", rdX), ("rdY", rdY)]) ==
      baseUrl + "/addresses/rd/" + ToStr(rdX) + "/" + ToStr(rdY)
  {
    NumericInert(rdX);
    NumericInert(rdY);
    RdTemplateShape();
    TwoParamUrl(baseUrl, "/addresses/rd/", "/", ("rdX", rdX), ("rdY", rdY));
  }

  /**
   * On integer coordinates `viewByRd` accepts exactly 0 < rdX <= 300000 and
   * 300000 <= rdY <= 620000, both bounds included, with each failure
   * reported by the check that comes first.
   */
  lemma ViewByRdOnIntegers(x: int, y: int)
    ensures ViewByRdRequest(Int(x), Int(y)).Success? <==> 0 < x <= 300000 && 300000 <= y <= 620000
    ensures x == 0 ==> ViewByRdRequest(Int(x), Int(y)) == Failure(Error(Required("rdX")))
    ensures x != 0 && y == 0 ==> ViewByRdRequest(Int(x), Int(y)) == Failure(Error(Required("rdY")))
    ensures x != 0 && y != 0 && (x < 0 || x > 300000) ==> ViewByRdRequest(Int(x), Int(y)) == Failure(Error(RdXRange))
    ensures 0 < x <= 300000 && y != 0 && (y < 300000 || y > 620000) ==>
      ViewByRdRequest(Int(x), Int(y)) == Failure(Error(RdYRange))
  {
  }

  /** A non-empty string of decimal digits is truthy and its number is its value. */
  lemma DigitStringNumber(s: string)
    requires |s| > 0 && AllDigits(s)
    ensures Truthy(Str(s)) && ToNumber(Str(s)) == Some(DigitsValue(s) as real)
  {
    assert IsDigit(s[0]) && IsDigit(s[|s| - 1]);
    NoWhitespaceTrims(s);
  }

  /** A string of digits, leading zeros and all, passes the rdX checks when its value is in range. */
  lemma ViewByRdDigitString(s: string, y: int)
    requires |s| > 0 && AllDigits(s) && DigitsValue(s) <= 300000 && 300000 <= y <= 620000
    ensures ViewByRdRequest(Str(s), Int(y)).Success?
  {
    DigitStringNumber(s);
  }

  /**
   * The number 0 lies within the range of rdX, yet it never reaches the
   * range check: it is falsy, so it is reported missing. The string "0" is
   * truthy and passes.
   */
  lemma ViewByRdZeroQuirk(rdY: JsValue)
    ensures Within(ToNumber(Int(0)), 0, 300000)
    ensures ViewByRdRequest(Int(0), rdY) == Failure(Error(Required("rdX")))
    ensures ViewByRdRequest(Str("0"), Int(300000)).Success?
  {
    var zero := "0";
    assert AllDigits(zero) && DigitsValue(zero) == 0;
    ViewByRdDigitString(zero, 300000);
  }

  /** `latlon` only checks presence and number-ness of each coordinate. */
  lemma LatLonOnIntegers(a: int, b: int)
    ensures LatLonRequest(Int(a), Int(b)).Success? <==> a != 0 && b != 0
    ensures a == 0 ==> LatLonRequest(Int(a), Int(b)) == Failure(Error(Required("latitude")))
    ensures a != 0 && b == 0 ==> LatLonRequest(Int(a), Int(b)) == Failure(Error(Required("longitude")))
  {
  }

  /** A zero latitude or longitude is reported missing, whatever the other coordinate is. */
  lemma LatLonZeroRejected(latitude: JsValue, longitude: JsValue)
    ensures LatLonRequest(Int(0), longitude) == Failure(Error(Required("latitude")))
    ensures Truthy(latitude) ==> LatLonRequest(latitude, Int(0)) == Failure(Error(Required("longitude")))
  {
  }

  lemma LatLonTemplateShape()
    ensures LatLonTemplate == "/addresses/latlon/" + Placeholder("latitude") + "/" + Placeholder("longitude")
    ensures '{' !in "/addresses/latlon/" && '{' !in "/"
  {
  }

  /** A request `latlon` lets through is sent to `/addresses/latlon/` with both coordinates. */
  lemma LatLonUrl(baseUrl: string, latitude: JsValue, longitude: JsValue)
    requires LatLonRequest(latitude, longitude).Success?
    ensures FormattedUrl(baseUrl, LatLonTemplate, [("latitude", latitude), ("longitude", longitude)]) ==
      baseUrl + "/addresses/latlon/" + ToStr(latitude) + "/" + ToStr(longitude)
  {
    NumericInert(latitude);
    NumericInert(longitude);
    LatLonTemplateShape();
    TwoParamUrl(baseUrl, "/addresses/latlon/", "/", ("latitude", latitude), ("longitude", longitude));
  }

  lemma ExactTemplateShape()
    ensures ExactTemplate == "/addresses/exact/" + Placeholder("city") + "/" + Placeholder("street") + "/"
                             + Placeholder("houseNumber") + "/" + Placeholder("houseNumberAddition")
    ensures '{' !in "/addresses/exact/" && '{' !in "/"
  {
  }

  /**
   * A request `matchExact` lets through, with values that hold no `{` or `$`,
   * is sent to `/addresses/exact/` with the four values separated by slashes.
   */
  lemma MatchExactUrl(baseUrl: string, city: JsValue, street: JsValue, houseNumber: JsValue,
                      houseNumberAddition: JsValue)
    requires MatchExactRequest(city, street, houseNumber, houseNumberAddition).Success?
    requires Inert(ToStr(city)) && Inert(ToStr(street)) && Inert(ToStr(houseNumber))
    requires '$' !in ToStr(WithDefault(houseNumberAddition, Str("")))
    ensures FormattedUrl(baseUrl, ExactTemplate, MatchExactRequest(city, street, houseNumber, houseNumberAddition).value.params) ==
      baseUrl + "/addresses/exact/" + ToStr(city) + "/" + ToStr(street) + "/" + ToStr(houseNumber) + "/"
      + ToStr(WithDefault(houseNumberAddition, Str("")))
  {
    ExactTemplateShape();
    FourParamUrl(baseUrl, "/addresses/exact/", "/", "/", "/",
      ("city", city), ("street", street), ("houseNumber", houseNumber),
      ("houseNumberAddition", WithDefault(houseNumberAddition, Str(""))));
  }

  /** Without an addition the `matchExact` URL ends in a slash. */
  lemma MatchExactTrailingSlash(baseUrl: string, city: JsValue, street: JsValue, houseNumber: JsValue)
    requires MatchExactRequest(city, street, houseNumber, Undefined).Success?
    requires Inert(ToStr(city)) && Inert(ToStr(street)) && Inert(ToStr(houseNumber))
    ensures FormattedUrl(baseUrl, ExactTemplate, MatchExactRequest(city, street, houseNumber, Undefined).value.params) ==
      baseUrl + "/addresses/exact/" + ToStr(city) + "/" + ToStr(street) + "/" + ToStr(houseNumber) + "/"
  {
    MatchExactUrl(baseUrl, city, street, houseNumber, Undefined);
    var u := baseUrl + "/addresses/exact/" + ToStr(city) + "/" + ToStr(street) + "/" + ToStr(houseNumber) + "/";
    assert u + ToStr(Str("")) == u;
  }

  lemma PostcodeTemplateShape()
    ensures PostcodeTemplate == "/addresses/postcode/" + Placeholder("postcode") + "/" + Placeholder("houseNumber")
                                + "/" + Placeholder("houseNumberAddition")
    ensures '{' !in "/addresses/postcode/" && '{' !in "/"
  {
  }

  /**
   * A request that `viewByPostcode` with `isNaN` lets through, with values
   * that hold no `{` or `$`, is sent to `/addresses/postcode/` with the
   * three values separated by slashes.
   */
  lemma ViewByPostcodeIntendedUrl(baseUrl: string, postcode: JsValue, houseNumber: JsValue,
                                  houseNumberAddition: JsValue)
    requires ViewByPostcodeRequestIntended(postcode, houseNumber, houseNumberAddition).Success?
    requires Inert(ToStr(postcode)) && Inert(ToStr(houseNumber))
    requires '$' !in ToStr(WithDefault(houseNumberAddition, Str("")))
    ensures FormattedUrl(baseUrl, PostcodeTemplate,
                         ViewByPostcodeRequestIntended(postcode, houseNumber, houseNumberAddition).value.params) ==
      baseUrl + "/addresses/postcode/" + ToStr(postcode) + "/" + ToStr(houseNumber) + "/"
      + ToStr(WithDefault(houseNumberAddition, Str("")))
  {
    PostcodeTemplateShape();
    ThreeParamUrl(baseUrl, "/addresses/postcode/", "/", "/",
      ("postcode", postcode), ("houseNumber", houseNumber),
      ("houseNumberAddition", WithDefault(houseNumberAddition, Str(""))));
  }

  lemma RangesTemplateShape()
    ensures RangesTemplate == "/postcode-ranges/postcode/" + Placeholder("postcode")
    ensures '{' !in "/postcode-ranges/postcode/"
  {
  }

  /** A postcode that `postcodeRanges` with `isNaN` lets through, free of `$`, ends the URL. */
  lemma PostcodeRangesIntendedUrl(baseUrl: string, postcode: JsValue)
    requires PostcodeRangesRequestIntended(postcode).Success? && '$' !in ToStr(postcode)
    ensures FormattedUrl(baseUrl, RangesTemplate, PostcodeRangesRequestIntended(postcode).value.params) ==
      baseUrl + "/postcode-ranges/postcode/" + postcode.s
  {
    RangesTemplateShape();
    OneParamUrl(baseUrl, "/postcode-ranges/postcode/", ("postcode", postcode));
  }

  // ----- The postcode checks -----

  /** The value of four decimal digits. */
  lemma FourDigitsValue(p: string)
    requires |p| == 4 && AllDigits(p)
    ensures DigitsValue(p) ==
      1000 * DigitValue(p[0]) + 100 * DigitValue(p[1]) + 10 * DigitValue(p[2]) + DigitValue(p[3])
  {
    var p3, p2, p1 := p[..3], p[..2], p[..1];
    assert p3[..2] == p2 && p2[..1] == p1 && p1[..0] == [];
    assert DigitsValue(p) == DigitsValue(p3) * 10 + DigitValue(p[3]);
    assert DigitsValue(p3) == DigitsValue(p2) * 10 + DigitValue(p[2]);
    assert DigitsValue(p2) == DigitsValue(p1) * 10 + DigitValue(p[1]);
    assert DigitsValue(p1) == DigitValue(p[0]);
  }

  /**
   * When the first four characters of a postcode are digits, `parseInt`
   * reads them as a number, and that number lies from 1000 to 9999 exactly
   * when the first digit is not 0.
   */
  lemma DigitPrefixNumber(s: string)
    requires |s| >= 4 && AllDigits(s[..4])
    ensures ParseInt(Prefix4(s)).Some?
    ensures 1000 <= ParseInt(Prefix4(s)).value <= 9999 <==> s[0] != '0'
  {
    DigitPrefixValue(s);
    FourDigitsRange(s[..4]);
  }

  lemma DigitPrefixValue(s: string)
    requires |s| >= 4 && AllDigits(s[..4])
    ensures ParseInt(Prefix4(s)) == Some(DigitsValue(s[..4]))
  {
    ParseIntOfDigits(s[..4]);
  }

  /** Four digits make a number from 1000 to 9999 exactly when the first is not 0. */
  lemma FourDigitsRange(p: string)
    requires |p| == 4 && AllDigits(p)
    ensures 1000 <= DigitsValue(p) <= 9999 <==> p[0] != '0'
  {
    FourDigitsValue(p);
    assert p[0] == '0' <==> DigitValue(p[0]) == 0;
  }

  /** The validators' range test on a postcode with four leading digits. */
  lemma DigitPrefixWithin(s: string)
    requires |s| >= 4 && AllDigits(s[..4])
    ensures Within(OptionReal(ParseInt(Prefix4(s))), 1000, 9999) <==> s[0] != '0'
  {
    DigitPrefixNumber(s);
  }

  /** A postcode that starts with anything but white space, a digit or a sign is not a number to `parseInt`. */
  lemma NonNumericPrefix(s: string)
    requires |s| > 0 && !IsJsWhitespace(s[0]) && !IsDigit(s[0]) && s[0] != '+' && s[0] != '-'
    ensures ParseInt(Prefix4(s)).None?
  {
    var p := Prefix4(s);
    assert p[0] == s[0];
    assert TrimStart(p) == p;
    assert LeadingDigits(p) == [];
  }

  /**
   * With `isNaN`, a postcode whose first four characters are digits is
   * accepted exactly when it does not start with 0; one that starts with 0
   * is reported out of range.
   */
  lemma ViewByPostcodeIntendedDigits(s: string, houseNumber: JsValue, houseNumberAddition: JsValue)
    requires |s| >= 4 && AllDigits(s[..4]) && Truthy(houseNumber)
    ensures ViewByPostcodeRequestIntended(Str(s), houseNumber, houseNumberAddition).Success? <==> s[0] != '0'
    ensures s[0] == '0' ==>
      ViewByPostcodeRequestIntended(Str(s), houseNumber, houseNumberAddition) == Failure(Error(PrefixOutOfRange))
  {
    ViewByPostcodeIntendedAccepts(s, houseNumber, houseNumberAddition);
    if s[0] == '0' {
      ViewByPostcodeIntendedOutOfRange(s, houseNumber, houseNumberAddition);
    }
  }

  lemma ViewByPostcodeIntendedAccepts(s: string, houseNumber: JsValue, houseNumberAddition: JsValue)
    requires |s| >= 4 && AllDigits(s[..4]) && Truthy(houseNumber)
    ensures ViewByPostcodeRequestIntended(Str(s), houseNumber, houseNumberAddition).Success? <==> s[0] != '0'
  {
    DigitPrefixWithin(s);
  }

  lemma ViewByPostcodeIntendedOutOfRange(s: string, houseNumber: JsValue, houseNumberAddition: JsValue)
    requires |s| >= 4 && AllDigits(s[..4]) && Truthy(houseNumber) && s[0] == '0'
    ensures ViewByPostcodeRequestIntended(Str(s), houseNumber, houseNumberAddition) == Failure(Error(PrefixOutOfRange))
  {
    DigitPrefixNumber(s);
  }

  /** With `isNaN`, a postcode that does not start like a number is reported as not a number. */
  lemma ViewByPostcodeIntendedNotANumber(s: string, houseNumber: JsValue, houseNumberAddition: JsValue)
    requires |s| > 0 && !IsJsWhitespace(s[0]) && !IsDigit(s[0]) && s[0] != '+' && s[0] != '-'
    requires Truthy(houseNumber)
    ensures ViewByPostcodeRequestIntended(Str(s), houseNumber, houseNumberAddition) == Failure(Error(PrefixNotANumber))
  {
    NonNumericPrefix(s);
  }

  lemma PostcodeRangesIntendedDigits(s: string)
    requires |s| >= 4 && AllDigits(s[..4])
    ensures PostcodeRangesRequestIntended(Str(s)).Success? <==> s[0] != '0'
    ensures s[0] == '0' ==> PostcodeRangesRequestIntended(Str(s)) == Failure(Error(PrefixOutOfRange))
  {
    DigitPrefixNumber(s);
  }

  lemma PostcodeRangesIntendedNotANumber(s: string)
    requires |s| > 0 && !IsJsWhitespace(s[0]) && !IsDigit(s[0]) && s[0] != '+' && s[0] != '-'
    ensures PostcodeRangesRequestIntended(Str(s)) == Failure(Error(PrefixNotANumber))
  {
    NonNumericPrefix(s);
  }

  /**
   * The `isNan` typo: a well-formed postcode such as `1234AB`, which the
   * intended check accepts, makes the function as written throw a
   * ReferenceError instead of sending the request.
   */
  lemma ViewByPostcodeTypo(s: string, houseNumber: JsValue, houseNumberAddition: JsValue)
    requires |s| >= 4 && AllDigits(s[..4]) && s[0] != '0' && Truthy(houseNumber)
    ensures ViewByPostcodeRequest(Str(s), houseNumber, houseNumberAddition) == Failure(ReferenceError(IsNanUndefined))
    ensures ViewByPostcodeRequestIntended(Str(s), houseNumber, houseNumberAddition).Success?
  {
    ViewByPostcodeIntendedDigits(s, houseNumber, houseNumberAddition);
  }

  lemma PostcodeRangesTypo(s: string)
    requires |s| >= 4 && AllDigits(s[..4]) && s[0] != '0'
    ensures PostcodeRangesRequest(Str(s)) == Failure(ReferenceError(IsNanUndefined))
    ensures PostcodeRangesRequestIntended(Str(s)).Success?
  {
    PostcodeRangesIntendedDigits(s);
  }

  // ----- Credentials -----

  /**
   * The credential text splits back into key and secret at its first `:`,
   * provided the key's string form holds no `:` itself.
   */
  lemma CredentialsSplit(key: JsValue, secret: JsValue)
    requires ':' !in ToStr(key)
    ensures IndexOf(Credentials(key, secret).credentials, ":") == Some(|ToStr(key)|)
    ensures Credentials(key, secret).credentials[..|ToStr(key)|] == ToStr(key)
    ensures Credentials(key, secret).credentials[|ToStr(key)| + 1..] == ToStr(secret)
  {
    var k, s := ToStr(key), ToStr(secret);
    var c := Credentials(key, secret).credentials;
    assert c == k + ":" + s;
    assert c[|k|..|k| + 1] == ":";
    forall j: nat | j < |k| ensures !OccursAt(c, ":", j) {
      assert c[j..j + 1][0] == k[j];
    }
    IndexOfIsFirst(c, ":", |k|);
    assert c[..|k|] == k;
    assert c[|k| + 1..] == s;
  }
}
