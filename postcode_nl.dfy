/**
 * The `postCodeNL` client (index.js:8-190): the credential check of its
 * constructor, `_formatUrl`, the inspection of the response body in
 * `_runClient`, and the argument checks by which each of the five public
 * operations decides between throwing and sending one GET request.
 *
 * The HTTP call is the parameter `get`, from the URL and the credentials to
 * the decoded JSON body; everything else is modelled as the code does it.
 */
module PostcodeNl {
  import opened Wrappers
  import opened JsStrings
  import opened JsValues
  import opened UrlTemplate

  /** `this.baseUrl` (index.js:16). */
  const BaseUrl := "https://api.postcode.nl/rest"

  /** What an operation throws (or its promise rejects with). */
  datatype Thrown =
    | Error(message: string)                   // `new Error(message)`, the argument checks
    | CodedError(message: string, code: JsValue) // the error `_runClient` builds, with `err.code`
    | TypeError(message: string)               // a method called on a value that lacks it
    | ReferenceError(message: string)          // a name that is not defined

  /**
   * The `Authorization` header value: `Basic` and the base64 encoding of
   * `key + ':' + secret`. The credentials are kept before encoding.
   */
  datatype Auth = Basic(credentials: string)

  /** A decoded JSON response object: its own properties and their values. */
  type Body = map<string, JsValue>

  /** What an operation passes to `_runClient`: the URL template and the parameter object. */
  datatype Request = Request(template: string, params: Params)

  // ----- Messages -----

  const CredentialsMissing := "Key and secret must both be applied."
  const PrefixNotANumber := "first 4 characters of postcode must be a number."
  const PrefixOutOfRange := "first 4 characters of postcode must be between 1000 and 9999."
  const RdXRange := "rdX must be between 0 and 300000."
  const RdYRange := "rdY must be between 300000 and 620000."
  const SubstrMissing := "postcode.substr is not a function"
  const IsNanUndefined := "isNan is not defined"

  /** The message of a failed presence check, as the source spells it. */
  function Required(name: string): string {
    name + " is a required."
  }

  /** The message of a failed `isNaN` check. */
  function NotANumber(name: string): string {
    name + " must be a number."
  }

  // ----- Templates -----

  // The URL templates of the five operations, assembled from their literal
  // segments and placeholders: PostcodeTemplate is
  // `/addresses/postcode/{postcode}/{houseNumber}/{houseNumberAddition}`, and
  // so on.

  const PostcodeTemplate := "/addresses/postcode/" + Placeholder("postcode") + "/" + Placeholder("houseNumber")
                            + "/" + Placeholder("houseNumberAddition")
  const ExactTemplate := "/addresses/exact/" + Placeholder("city") + "/" + Placeholder("street")
                         + "/" + Placeholder("houseNumber") + "/" + Placeholder("houseNumberAddition")
  const RdTemplate := "/addresses/rd/" + Placeholder("rdX") + "/" + Placeholder("rdY")
  const LatLonTemplate := "/addresses/latlon/" + Placeholder("latitude") + "/" + Placeholder("longitude")
  const RangesTemplate := "/postcode-ranges/postcode/" + Placeholder("postcode")

  // ----- Constructor -----

  /** The check at the top of the constructor (index.js:10-13). */
  function CredentialCheck(key: JsValue, secret: JsValue): (r: Option<Thrown>)
    ensures r.None? <==> Truthy(key) && Truthy(secret)
    ensures r.Some? ==> r.value == Error(CredentialsMissing)
  {
    if !Truthy(key) || !Truthy(secret) then Some(Error(CredentialsMissing)) else None
  }

  /** `key + ':' + secret`, the text that is base64-encoded into `_auth` (index.js:20). */
  function Credentials(key: JsValue, secret: JsValue): Auth {
    Basic(ToStr(key) + ":" + ToStr(secret))
  }

  // ----- The response body (index.js:42-48) -----

  /** `new Error(m)`: an undefined message gives the empty message, anything else its string form. */
  function ErrorMessage(m: JsValue): string {
    if m.Undefined? then "" else ToStr(m)
  }

  /** `body.p` for a property that may be absent. */
  function Property(body: Body, p: string): JsValue {
    if p in body then body[p] else Undefined
  }

  /**
   * A body with an `exception` property becomes an error carrying that
   * message and, as its code, `exceptionId` when that is truthy and null
   * otherwise; any other body is the result, as it came.
   */
  function InspectBody(body: Body): (r: Result<Body, Thrown>)
    ensures r.Success? <==> "exception" !in body
    ensures r.Success? ==> r.value == body
    ensures r.Failure? ==> r.error.CodedError? && r.error.message == ErrorMessage(body["exception"])
    ensures r.Failure? && Truthy(Property(body, "exceptionId")) ==> r.error.code == body["exceptionId"]
    ensures r.Failure? && !Truthy(Property(body, "exceptionId")) ==> r.error.code == Null
  {
    if "exception" in body then
      var id := Property(body, "exceptionId");
      Failure(CodedError(ErrorMessage(body["exception"]), if Truthy(id) then id else Null))
    else
      Success(body)
  }

  // ----- The argument checks of the five operations -----

  /** `postcode.substr(0, 4)` on a string: its first four characters, or all of it when shorter. */
  function Prefix4(s: string): (r: string)
    ensures |r| == if |s| < 4 then |s| else 4
    ensures r == s[..|r|]
  {
    if |s| < 4 then s else s[..4]
  }

  /**
   * `viewByPostcode` as written (index.js:51-78). Past the two presence
   * checks nothing can succeed: a number has no `substr` method, and for a
   * string the next call is to `isNan`, which is not defined. The range check
   * and the request are never reached.
   */
  function ViewByPostcodeRequest(postcode: JsValue, houseNumber: JsValue, houseNumberAddition: JsValue)
    : (r: Result<Request, Thrown>)
    ensures r.Failure?
    ensures r.error != Error(PrefixNotANumber) && r.error != Error(PrefixOutOfRange)
    ensures Truthy(postcode) && Truthy(houseNumber) ==>
      r.error == if postcode.Str? then ReferenceError(IsNanUndefined) else TypeError(SubstrMissing)
  {
    if !Truthy(postcode) then Failure(Error(Required("postcode")))
    else if !Truthy(houseNumber) then Failure(Error(Required("houseNumber")))
    else if !postcode.Str? then Failure(TypeError(SubstrMissing))
    else Failure(ReferenceError(IsNanUndefined))
  }

  /**
   * `viewByPostcode` as it is evidently meant, with `isNaN` in place of
   * `isNan` at index.js:64: the first four characters must parse to an
   * integer from 1000 to 9999.
   */
  function ViewByPostcodeRequestIntended(postcode: JsValue, houseNumber: JsValue, houseNumberAddition: JsValue)
    : (r: Result<Request, Thrown>)
    ensures r.Success? <==> Truthy(postcode) && Truthy(houseNumber) && postcode.Str?
                            && Within(OptionReal(ParseInt(Prefix4(postcode.s))), 1000, 9999)
    ensures r.Success? ==> r.value.template == PostcodeTemplate
  {
    if !Truthy(postcode) then Failure(Error(Required("postcode")))
    else if !Truthy(houseNumber) then Failure(Error(Required("houseNumber")))
    else if !postcode.Str? then Failure(TypeError(SubstrMissing))
    else
      var postcodeNumber := ParseInt(Prefix4(postcode.s));
      if postcodeNumber.None? then Failure(Error(PrefixNotANumber))
      else if postcodeNumber.value < 1000 || postcodeNumber.value > 9999 then Failure(Error(PrefixOutOfRange))
      else Success(Request(PostcodeTemplate, [
        ("postcode", postcode),
        ("houseNumber", houseNumber),
        ("houseNumberAddition", WithDefault(houseNumberAddition, Str("")))]))
  }

  /** A `parseInt` result as a number, NaN staying NaN. */
  function OptionReal(x: Option<int>): (r: Option<real>)
    ensures r.Some? <==> x.Some?
    ensures r.Some? ==> r.value == x.value as real
  {
    if x.None? then None else Some(x.value as real)
  }

  /** `matchExact` (index.js:80-102): three presence checks, then the request. */
  function MatchExactRequest(city: JsValue, street: JsValue, houseNumber: JsValue, houseNumberAddition: JsValue)
    : (r: Result<Request, Thrown>)
    ensures r.Success? <==> Truthy(city) && Truthy(street) && Truthy(houseNumber)
    ensures r.Success? ==> r.value.template == ExactTemplate
  {
    if !Truthy(city) then Failure(Error(Required("city")))
    else if !Truthy(street) then Failure(Error(Required("street")))
    else if !Truthy(houseNumber) then Failure(Error(Required("houseNumber")))
    else Success(Request(ExactTemplate, [
      ("city", city),
      ("street", street),
      ("houseNumber", houseNumber),
      ("houseNumberAddition", WithDefault(houseNumberAddition, Str("")))]))
  }

  /** `viewByRd` (index.js:104-139): presence, then number and range of each coordinate. */
  function ViewByRdRequest(rdX: JsValue, rdY: JsValue): (r: Result<Request, Thrown>)
    ensures r.Success? <==> Truthy(rdX) && Truthy(rdY)
                            && Within(ToNumber(rdX), 0, 300000) && Within(ToNumber(rdY), 300000, 620000)
    ensures r.Success? ==> r.value.template == RdTemplate
  {
    if !Truthy(rdX) then Failure(Error(Required("rdX")))
    else if !Truthy(rdY) then Failure(Error(Required("rdY")))
    else if IsNaN(rdX) then Failure(Error(NotANumber("rdX")))
    else if OutOfRange(ToNumber(rdX), 0, 300000) then Failure(Error(RdXRange))
    else if IsNaN(rdY) then Failure(Error(NotANumber("rdY")))
    else if OutOfRange(ToNumber(rdY), 300000, 620000) then Failure(Error(RdYRange))
    else Success(Request(RdTemplate, [("rdX", rdX), ("rdY", rdY)]))
  }

  /** `latlon` (index.js:141-166): presence of both coordinates, then that both are numbers. */
  function LatLonRequest(latitude: JsValue, longitude: JsValue): (r: Result<Request, Thrown>)
    ensures r.Success? <==> Truthy(latitude) && Truthy(longitude) && !IsNaN(latitude) && !IsNaN(longitude)
    ensures r.Success? ==> r.value.template == LatLonTemplate
  {
    if !Truthy(latitude) then Failure(Error(Required("latitude")))
    else if !Truthy(longitude) then Failure(Error(Required("longitude")))
    else if IsNaN(latitude) then Failure(Error(NotANumber("latitude")))
    else if IsNaN(longitude) then Failure(Error(NotANumber("longitude")))
    else Success(Request(LatLonTemplate, [("latitude", latitude), ("longitude", longitude)]))
  }

  /**
   * `postcodeRanges` as written (index.js:168-189): like `viewByPostcode`,
   * every truthy postcode ends in an error before the range check.
   */
  function PostcodeRangesRequest(postcode: JsValue): (r: Result<Request, Thrown>)
    ensures r.Failure?
    ensures r.error != Error(PrefixNotANumber) && r.error != Error(PrefixOutOfRange)
    ensures Truthy(postcode) ==>
      r.error == if postcode.Str? then ReferenceError(IsNanUndefined) else TypeError(SubstrMissing)
  {
    if !Truthy(postcode) then Failure(Error(Required("postcode")))
    else if !postcode.Str? then Failure(TypeError(SubstrMissing))
    else Failure(ReferenceError(IsNanUndefined))
  }

  /** `postcodeRanges` as it is evidently meant, with `isNaN` at index.js:176. */
  function PostcodeRangesRequestIntended(postcode: JsValue): (r: Result<Request, Thrown>)
    ensures r.Success? <==> Truthy(postcode) && postcode.Str?
                            && Within(OptionReal(ParseInt(Prefix4(postcode.s))), 1000, 9999)
    ensures r.Success? ==> r.value == Request(RangesTemplate, [("postcode", postcode)])
  {
    if !Truthy(postcode) then Failure(Error(Required("postcode")))
    else if !postcode.Str? then Failure(TypeError(SubstrMissing))
    else
      var postcodeNumber := ParseInt(Prefix4(postcode.s));
      if postcodeNumber.None? then Failure(Error(PrefixNotANumber))
      else if postcodeNumber.value < 1000 || postcodeNumber.value > 9999 then Failure(Error(PrefixOutOfRange))
      else Success(Request(RangesTemplate, [("postcode", postcode)]))
  }

  // ----- The client object -----

  /** A `postCodeNL` instance: the fields its constructor sets, which nothing changes afterwards. */
  class Client {
    const baseUrl: string
    const version: string
    const auth: Auth

    /**
     * The constructor for credentials that pass its check; `NewClient`
     * below is the constructor with the check. `version` is the package
     * version, which the source reads from its package file.
     */
    constructor (key: JsValue, secret: JsValue, version: string)
      requires Truthy(key) && Truthy(secret)
      ensures baseUrl == BaseUrl && this.version == version && auth == Credentials(key, secret)
    {
      baseUrl := BaseUrl;
      this.version := version;
      auth := Credentials(key, secret);
    }

    /** `_formatUrl(url, parameters)` (index.js:23-30). */
    method FormatUrl(template: string, params: Params) returns (url: string)
      ensures url == FormattedUrl(baseUrl, template, params)
    {
      url := template;
      var i := 0;
      while i < |params|
        invariant 0 <= i <= |params|
        invariant SubstituteAll(url, params[i..]) == SubstituteAll(template, params)
      {
        assert params[i..][1..] == params[i + 1..];
        url := ReplaceFirst(url, Placeholder(params[i].0), ToStr(params[i].1));
        i := i + 1;
      }
      assert params[i..] == [];
      url := baseUrl + "/" + StripLeadingSlash(url);
    }

    /** What an operation yields: its thrown error, or what `_runClient` makes of the request. */
    function Outcome(request: Result<Request, Thrown>, get: (string, Auth) -> Body): Result<Body, Thrown> {
      match request
      case Failure(e) => Failure(e)
      case Success(q) => InspectBody(get(FormattedUrl(baseUrl, q.template, q.params), auth))
    }

    /** `_runClient(url, data)` (index.js:32-49), with `get` in place of the `needle` GET. */
    method RunClient(template: string, params: Params, get: (string, Auth) -> Body)
      returns (r: Result<Body, Thrown>)
      ensures r == InspectBody(get(FormattedUrl(baseUrl, template, params), auth))
      ensures r.Success? ==> "exception" !in r.value
    {
      var formattedUrl := FormatUrl(template, params);
      var body := get(formattedUrl, auth);
      r := InspectBody(body);
    }

    /** Sends the request the checks produced, or passes their error on. */
    method Dispatch(request: Result<Request, Thrown>, get: (string, Auth) -> Body)
      returns (r: Result<Body, Thrown>)
      ensures r == Outcome(request, get)
    {
      match request
      case Failure(e) =>
        r := Failure(e);
      case Success(q) =>
        r := RunClient(q.template, q.params, get);
    }

    method ViewByPostcode(postcode: JsValue, houseNumber: JsValue, houseNumberAddition: JsValue,
                          get: (string, Auth) -> Body)
      returns (r: Result<Body, Thrown>)
      ensures r == Outcome(ViewByPostcodeRequest(postcode, houseNumber, houseNumberAddition), get)
      ensures r.Failure?
    {
      r := Dispatch(ViewByPostcodeRequest(postcode, houseNumber, houseNumberAddition), get);
    }

    method MatchExact(city: JsValue, street: JsValue, houseNumber: JsValue, houseNumberAddition: JsValue,
                      get: (string, Auth) -> Body)
      returns (r: Result<Body, Thrown>)
      ensures r == Outcome(MatchExactRequest(city, street, houseNumber, houseNumberAddition), get)
      ensures r.Success? ==> "exception" !in r.value
    {
      r := Dispatch(MatchExactRequest(city, street, houseNumber, houseNumberAddition), get);
    }

    method ViewByRd(rdX: JsValue, rdY: JsValue, get: (string, Auth) -> Body)
      returns (r: Result<Body, Thrown>)
      ensures r == Outcome(ViewByRdRequest(rdX, rdY), get)
      ensures r.Success? ==> "exception" !in r.value
    {
      r := Dispatch(ViewByRdRequest(rdX, rdY), get);
    }

    method LatLon(latitude: JsValue, longitude: JsValue, get: (string, Auth) -> Body)
      returns (r: Result<Body, Thrown>)
      ensures r == Outcome(LatLonRequest(latitude, longitude), get)
      ensures r.Success? ==> "exception" !in r.value
    {
      r := Dispatch(LatLonRequest(latitude, longitude), get);
    }

    method PostcodeRanges(postcode: JsValue, get: (string, Auth) -> Body)
      returns (r: Result<Body, Thrown>)
      ensures r == Outcome(PostcodeRangesRequest(postcode), get)
      ensures r.Failure?
    {
      r := Dispatch(PostcodeRangesRequest(postcode), get);
    }

    /** `viewByPostcode` with `isNaN` at index.js:64: a well-formed postcode is looked up. */
    method ViewByPostcodeIntended(postcode: JsValue, houseNumber: JsValue, houseNumberAddition: JsValue,
                                  get: (string, Auth) -> Body)
      returns (r: Result<Body, Thrown>)
      ensures r == Outcome(ViewByPostcodeRequestIntended(postcode, houseNumber, houseNumberAddition), get)
      ensures r.Success? ==> "exception" !in r.value
    {
      r := Dispatch(ViewByPostcodeRequestIntended(postcode, houseNumber, houseNumberAddition), get);
    }

    /** `postcodeRanges` with `isNaN` at index.js:176. */
    method PostcodeRangesIntended(postcode: JsValue, get: (string, Auth) -> Body)
      returns (r: Result<Body, Thrown>)
      ensures r == Outcome(PostcodeRangesRequestIntended(postcode), get)
      ensures r.Success? ==> "exception" !in r.value
    {
      r := Dispatch(PostcodeRangesRequestIntended(postcode), get);
    }
  }

  /**
   * `new postCodeNL(key, secret)` (index.js:9-21): it throws unless both
   * credentials are truthy, and otherwise fixes the base URL and keeps the
   * credentials for the `Authorization` header.
   */
  method NewClient(key: JsValue, secret: JsValue, version: string) returns (r: Result<Client, Thrown>)
    ensures r.Failure? <==> !Truthy(key) || !Truthy(secret)
    ensures r.Failure? ==> r.error == Error(CredentialsMissing)
    ensures r.Success? ==> fresh(r.value) && r.value.baseUrl == BaseUrl && r.value.version == version
                           && r.value.auth == Credentials(key, secret)
  {
    match CredentialCheck(key, secret)
    case Some(e) =>
      r := Failure(e);
    case None =>
      var c := new Client(key, secret, version);
      r := Success(c);
  }
}
