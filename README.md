# postcode.nl client, modelled in Dafny

This project models the `postCodeNL` client class of the postcode.nl REST wrapper (`index.js`). The client does four things, and each is modelled as the code does it:

- **Constructor.** It refuses a falsy key or secret. Otherwise it fixes the base URL `https://api.postcode.nl/rest` and keeps `key + ':' + secret` for the `Authorization` header.
- **`_formatUrl`.** It rewrites a URL template, one parameter at a time in key order. `String.prototype.replace` is given a string pattern, so each key rewrites only the first `{key}`. Then one leading `/` is dropped and `baseUrl + '/'` is put in front.
- **`_runClient`.** After the GET, it turns a response body that has an `exception` property into an error whose `code` is `exceptionId` or null. Every other body is returned as it came.
- **The five lookups.** `viewByPostcode`, `matchExact`, `viewByRd`, `latlon` and `postcodeRanges` each run an ordered chain of argument checks, where the first failing check decides what is thrown. If every check passes, the lookup hands one template and one parameter object to `_runClient`.

Arguments are JavaScript values: `Undefined | Null | Str(s) | Int(n)`. On these, truthiness, `String(v)`, `Number(v)` (which `isNaN` and `<` use) and `parseInt` are spelled out:

- white space;
- signs;
- `0x` for `parseInt`;
- a decimal fraction for `Number`.

`String.prototype.replace` also expands `$$`, `$&`, `` $` `` and `$'` in the replacement, as GetSubstitution does (section 22.1.3.19.1 of ECMA-262).

The modules:

- `Wrappers`: `Option` and `Result`.
- `JsStrings`: `indexOf`, `replace` with a string pattern, and the leading-slash strip.
- `JsValues`: the value datatype and its coercions.
- `UrlTemplate`: `_formatUrl` as a function, with its substitution lemmas.
- `PostcodeNl`: the messages and templates, the checks of each operation, and the `Client` class.
  - `Client` has the fields the constructor sets.
  - `Client.FormatUrl` is a loop method, proved against `UrlTemplate.FormattedUrl`.
  - `Client.RunClient` and one method per lookup are given the HTTP GET as a parameter.
- `PostcodeNlProperties`: the properties.
  - Each lookup's checks follow an ordered table.
  - The URL that each accepted request is sent to.
  - The boundary and zero behaviour of the coordinate checks.
  - How the credential text splits.
  - The postcode checks, both as written and as intended.

Behaviour of `index.js` worth noting:

- **Placeholders.** Only the first occurrence of each placeholder is replaced (`replace` with a string pattern, index.js:26); a second `{key}` stays in the URL.
- **`rdX = 0`.** The number 0 is falsy, so it is reported missing (index.js:105) even though the range check at index.js:120 would include it.
- **Errors.** A remote exception becomes an `Error` carrying the remote message, with `exceptionId` as its code, and nothing else: there is no classification of errors.
- **Postcode checks.** The range checks of `viewByPostcode` and `postcodeRanges` are never reached. They sit behind a call to the undefined `isNan` (see Findings).

## Model

| member | source | states |
|---|---|---|
| PostcodeNl.CredentialCheck | index.js:10-13 | the constructor throws exactly when the key or the secret is falsy, and what it throws is the "Key and secret must both be applied." error |
| PostcodeNl.NewClient | index.js:9-21 | construction fails iff key or secret is falsy, with that error; otherwise a new client whose base URL is https://api.postcode.nl/rest, whose version is the package version and whose credentials are `key:secret` |
| PostcodeNl.Client.constructor | index.js:15-20 | the fields: the fixed base URL, the version, and the credentials built from key and secret only |
| PostcodeNlProperties.CredentialsSplit | index.js:20 | when the key's string form has no `:`, the first `:` of the credential text sits right after the key, and the text splits back into String(key) and String(secret) |
| PostcodeNl.Client.FormatUrl | index.js:23-30 | the loop's result is the base URL, a slash, and the template after each parameter in order has rewritten its first placeholder and one leading slash is gone |
| UrlTemplate.SubstituteAll | index.js:24-27 | the loop as a fold: each parameter in order replaces the first occurrence of its placeholder by String(value) in the text the previous ones left |
| UrlTemplate.FormattedUrl | index.js:23-30 | `_formatUrl`'s result: the base URL, `/`, and the substituted template less one leading `/` |
| UrlTemplate.Placeholder | index.js:26 | the pattern for a key is the key between `{` and `}` |
| UrlTemplate.FormattedUrlPrefix | index.js:29 | every formatted URL is longer than the base URL and starts with the base URL followed by `/` |
| UrlTemplate.FormattedUrlWithoutParams | index.js:23-29 | with no parameters the URL is the base URL, `/`, and the template less one leading slash; `/t` gives `base/t` and `//t` keeps one slash, `base//t` |
| UrlTemplate.SubstituteAllConcat | index.js:24-27 | substituting two parameter lists in turn is substituting their concatenation: keys act strictly in order |
| UrlTemplate.SubstituteAllWithoutPlaceholders | index.js:24-27 | a template holding no parameter's placeholder comes out unchanged |
| UrlTemplate.PlaceholdersDoNotOverlap | index.js:26 | placeholders of two different brace-free names never overlap in a string |
| UrlTemplate.UnknownPlaceholderSurvives | index.js:24-27 | a placeholder whose name is not a key is still present after the whole substitution, whatever the values |
| UrlTemplate.OnlyFirstOccurrenceReplaced | index.js:26 | when a key's placeholder occurs twice, the later occurrence is still present after that key is substituted, and for a `$`-free value it sits where it was, shifted by the value's length less the placeholder's |
| UrlTemplate.SubstituteAllBehindBraceFree | index.js:24-27 | text without `{` in front of the template passes through the substitution untouched, when no value holds `$` |
| UrlTemplate.FillTemplate | index.js:24-27 | a template of `{`-free segments and placeholders, filled with values free of `$` and, all but the last, free of `{`, yields the segments with the values in the placeholders' places |
| JsStrings.ReplaceFirst | index.js:26 | `replace` with a string pattern: the first match is replaced by the GetSubstitution expansion of the replacement, and a string without a match is returned unchanged |
| JsStrings.StripLeadingSlash | index.js:29 | `replace(/^\//, '')`: drops one `/` when the string starts with one, otherwise leaves it as it is |
| JsStrings.IndexOf | index.js:26 | a reported index is an occurrence of the pattern |
| JsStrings.IndexOfIsLeast | index.js:26 | the reported index is the least occurrence, and None is reported only when the pattern occurs nowhere |
| JsStrings.IndexOfIsFirst | index.js:26 | an occurrence with none before it is the one `indexOf` reports |
| JsStrings.Expand | index.js:26 | a replacement string without `$` is inserted as it is |
| JsStrings.ReplaceFirstVerbatim | index.js:26 | with a `$`-free replacement, `replace` puts it in place of the first match and keeps both sides |
| JsStrings.ReplaceFirstInPlace | index.js:26 | a `{`-pattern behind `{`-free text is replaced exactly where it stands |
| JsStrings.ReplaceFirstBehindBraceFree | index.js:26 | a `{`-free prefix is unchanged by a `{`-pattern replacement, which acts on the rest as on its own |
| JsStrings.ReplaceFirstKeeps | index.js:26 | an occurrence of any text not overlapping the first match survives the replacement: in place when before the match, shifted by the length difference when after it and the replacement is `$`-free |
| JsValues.Truthy | index.js:10 | `!v` holds exactly for undefined, null, the empty string and 0, as in index.js:10, 52, 57, 81, 105, 142 and 169 |
| JsValues.WithDefault | index.js:51 | a default parameter (`= ''` at index.js:51 and 80): the default replaces only an undefined argument, so null or `''` stay as passed |
| JsValues.ToStr | index.js:26 | `String(v)`: `undefined`, `null`, the string itself, or the integer's decimal numeral; also the text `replace` inserts and the text in `key + ':' + secret` (index.js:20) |
| JsValues.IntToString | index.js:26 | String of an integer: a `-` for a negative one, then the numeral of its magnitude |
| JsValues.NatToString | index.js:26 | `String(n)` of a natural number is a digit string without a leading zero whose value is n |
| JsValues.NatToStringCanonical | index.js:26 | a digit string without a leading zero that has value n is the one `String(n)` gives |
| JsValues.TrimStart | index.js:115 | the result is the suffix after the leading white space, and it starts with no white space |
| JsValues.TrimEnd | index.js:115 | the result is the prefix before the trailing white space, and it ends with no white space |
| JsValues.UnsignedDecimal | index.js:115 | an accepted numeral holds only digits and a point; a plain digit string has its decimal value |
| JsValues.SignedDecimal | index.js:115 | an accepted numeral holds only number characters; a plain digit string has its decimal value |
| JsValues.StringToNumber | index.js:115 | `Number` of a string: white space around the numeral is ignored, a blank string is 0, and a signed decimal numeral is its value; anything else is NaN |
| JsValues.ToNumber | index.js:115 | `Number(v)`: NaN for undefined, 0 for null, the string's number, or the integer itself |
| JsValues.IsNaN | index.js:115 | the global `isNaN` of index.js:115, 125, 152 and 157: `Number(v)` is NaN |
| JsValues.OutOfRange | index.js:120 | the range tests of index.js:120 and 130, "x < lo or x > hi", which NaN never fails |
| JsValues.Within | index.js:115-133 | passing both an `isNaN` check and the range test after it: a number from lo to hi |
| JsValues.NumberOfIntString | index.js:115 | `Number(String(n))` is n for every integer n |
| JsValues.NumericStringChars | index.js:115 | a string `Number` accepts holds only white space, digits, signs and points |
| JsValues.LeadingDigits | index.js:62 | the longest prefix of decimal digits: a prefix, all digits, followed by a non-digit or the end |
| JsValues.LeadingHexDigits | index.js:62 | the longest prefix of hexadecimal digits |
| JsValues.ParseInt | index.js:62 | `parseInt` of index.js:62 and 174: skip leading white space, read a sign, take base 16 after `0x`, and read the longest run of digits; NaN when the run is empty |
| JsValues.ParseIntOfDigits | index.js:62 | `parseInt` of a non-empty digit string is its decimal value |
| PostcodeNl.Credentials | index.js:20 | the text `String(key) + ':' + String(secret)` that is base64-encoded into `_auth` |
| PostcodeNl.ErrorMessage | index.js:43 | the message of `new Error(m)`: the empty message for undefined, String(m) otherwise |
| PostcodeNl.Property | index.js:43-44 | `body.p`: the property's value, or undefined when the body lacks it |
| PostcodeNl.InspectBody | index.js:42-48 | a body is returned unchanged iff it has no `exception` key, even when it has `exceptionId`; otherwise the error carries String(body.exception) as its message and, as code, `exceptionId` when truthy and null otherwise |
| PostcodeNl.Client.RunClient | index.js:32-49 | the outcome is the body inspection of what the GET returns for the formatted URL and the client's credentials; a returned body never has `exception` |
| PostcodeNl.Client.Outcome | index.js:73-77 | what a lookup yields: the error its checks throw, or the body inspection of what the GET returns for its formatted URL and the client's credentials (also index.js:96-101, 135-138, 162-165, 186-188) |
| PostcodeNl.Client.Dispatch | index.js:73-77 | a failed check is passed on as thrown; a request that passed goes to `_runClient` |
| PostcodeNl.Prefix4 | index.js:62 | `substr(0, 4)`: the first four characters, or the whole string when it is shorter |
| PostcodeNl.ViewByPostcodeRequest | index.js:51-78 | as written, nothing succeeds: a missing postcode or house number is reported in that order; past them a number postcode is a TypeError (no `substr`) and a string postcode a ReferenceError (`isNan`); the number and range errors never occur |
| PostcodeNl.ViewByPostcodeRequestIntended | index.js:51-78 | with `isNaN`: success iff postcode and house number are truthy, the postcode is a string and `parseInt` of its first four characters is from 1000 to 9999; the request uses the postcode template |
| PostcodeNl.MatchExactRequest | index.js:80-102 | success iff city, street and house number are all truthy; the request uses the exact-match template |
| PostcodeNl.ViewByRdRequest | index.js:104-139 | success iff both coordinates are truthy, rdX is a number in [0, 300000] and rdY a number in [300000, 620000]; the request uses the grid template |
| PostcodeNl.LatLonRequest | index.js:141-166 | success iff both coordinates are truthy and neither is NaN; the request uses the latlon template |
| PostcodeNl.PostcodeRangesRequest | index.js:168-189 | as written, nothing succeeds: a falsy postcode is reported missing, a number is a TypeError, a string a ReferenceError; the number and range errors never occur |
| PostcodeNl.PostcodeRangesRequestIntended | index.js:168-189 | with `isNaN`: success iff the postcode is a truthy string whose first four characters parse to 1000..9999, and then the request is the ranges template with the postcode |
| PostcodeNl.Client.ViewByPostcode | index.js:51-78 | the lookup is the checks as written, then `_runClient`; it always fails |
| PostcodeNl.Client.MatchExact | index.js:80-102 | the lookup is its checks, then `_runClient` of the request they build |
| PostcodeNl.Client.ViewByRd | index.js:104-139 | the lookup is its checks, then `_runClient` of the request they build |
| PostcodeNl.Client.LatLon | index.js:141-166 | the lookup is its checks, then `_runClient` of the request they build |
| PostcodeNl.Client.PostcodeRanges | index.js:168-189 | the lookup is the checks as written, then `_runClient`; it always fails |
| PostcodeNl.Client.ViewByPostcodeIntended | index.js:51-78 | the lookup with `isNaN`: the intended checks, then `_runClient` |
| PostcodeNl.Client.PostcodeRangesIntended | index.js:168-189 | the ranges lookup with `isNaN`: the intended checks, then `_runClient` |
| PostcodeNlProperties.FirstFailureNone | index.js:104-133 | a table of checks reports no failure exactly when every check passes |
| PostcodeNlProperties.FirstFailureAt | index.js:104-133 | the first failing check, with all before it passing, decides the error |
| PostcodeNlProperties.MatchExactFollowsChecks | index.js:80-101 | `matchExact` is its three presence checks in argument order, first failure wins, then the request with the addition defaulting to `''` |
| PostcodeNlProperties.ViewByRdFollowsChecks | index.js:104-138 | `viewByRd` is the six checks rdX present, rdY present, rdX numeric, rdX in range, rdY numeric, rdY in range, in that order, first failure wins |
| PostcodeNlProperties.LatLonFollowsChecks | index.js:141-165 | `latlon` is latitude present, longitude present, latitude numeric, longitude numeric, first failure wins |
| PostcodeNlProperties.ViewByPostcodeFollowsChecks | index.js:51-77 | as written, `viewByPostcode` is a table whose fourth row, the `isNan` call, always fails and stands before the number and range rows |
| PostcodeNlProperties.ViewByPostcodeIntendedFollowsChecks | index.js:51-77 | with `isNaN`, `viewByPostcode` is the same table without that row |
| PostcodeNlProperties.PostcodeRangesFollowsChecks | index.js:168-188 | as written, `postcodeRanges` is a table with the always-failing `isNan` row |
| PostcodeNlProperties.PostcodeRangesIntendedFollowsChecks | index.js:168-188 | with `isNaN`, the same table without that row |
| PostcodeNlProperties.NumericInert | index.js:115-128 | a value that passes `isNaN` prints without `{` or `$`, so it cannot disturb the substitution |
| PostcodeNlProperties.FilledUrl | index.js:23-30 | a `/`-rooted template of `{`-free segments, filled with `$`-free values of which all but the last hold no `{`, becomes the base URL, `/`, and the filled text less its leading slash |
| PostcodeNlProperties.OneParamUrl | index.js:23-30 | the URL of a template with one placeholder at its end is the base URL, the segment and the value, for any value without `$` |
| PostcodeNlProperties.TwoParamUrl | index.js:23-30 | the URL of a template with two placeholders is the base URL with segments and values in turn, for `$`-free values whose first holds no `{` |
| PostcodeNlProperties.ThreeParamUrl | index.js:23-30 | the same for three placeholders, the first two values free of `{` |
| PostcodeNlProperties.FourParamUrl | index.js:23-30 | the same for four placeholders, the first three values free of `{` |
| PostcodeNlProperties.ViewByRdUrl | index.js:135-138 | an accepted grid lookup is sent to base + `/addresses/rd/` + String(rdX) + `/` + String(rdY) |
| PostcodeNlProperties.LatLonUrl | index.js:162-165 | an accepted latlon lookup is sent to base + `/addresses/latlon/` + String(latitude) + `/` + String(longitude) |
| PostcodeNlProperties.MatchExactUrl | index.js:96-101 | an accepted exact match with city, street and house number free of `{` and `$`, and an addition free of `$`, is sent to base + `/addresses/exact/` and the four values separated by `/` |
| PostcodeNlProperties.MatchExactTrailingSlash | index.js:80-101 | without an addition, the exact-match URL ends in `/` |
| PostcodeNlProperties.ViewByPostcodeIntendedUrl | index.js:73-77 | with `isNaN`, an accepted postcode lookup whose postcode and house number hold no `{` or `$`, and whose addition holds no `$`, is sent to base + `/addresses/postcode/` and the three values separated by `/` |
| PostcodeNlProperties.PostcodeRangesIntendedUrl | index.js:186-188 | with `isNaN`, an accepted ranges lookup whose postcode holds no `$` is sent to base + `/postcode-ranges/postcode/` + the postcode |
| PostcodeNlProperties.ViewByRdOnIntegers | index.js:104-133 | on integers, the grid lookup passes iff 0 < rdX <= 300000 and 300000 <= rdY <= 620000, both upper bounds and the rdY lower bound included; and each failure is reported by the check that comes first |
| PostcodeNlProperties.DigitStringNumber | index.js:105-120 | a non-empty digit string is truthy and `Number` reads its decimal value |
| PostcodeNlProperties.ViewByRdDigitString | index.js:104-133 | a digit string rdX, leading zeros allowed, whose value is at most 300000 passes the rdX checks |
| PostcodeNlProperties.ViewByRdZeroQuirk | index.js:105-121 | the number 0 lies in the rdX range but is reported as "rdX is a required."; the string "0" passes |
| PostcodeNlProperties.LatLonOnIntegers | index.js:141-160 | on integers `latlon` passes iff neither coordinate is 0, and a 0 is reported missing, latitude first |
| PostcodeNlProperties.LatLonZeroRejected | index.js:142-150 | a zero latitude, or a zero longitude next to a present latitude, is reported missing |
| PostcodeNlProperties.DigitPrefixNumber | index.js:62-72 | when a postcode starts with four digits, `parseInt` of them is a number, and it lies in 1000..9999 iff the first digit is not 0 |
| PostcodeNlProperties.FourDigitsRange | index.js:69 | four digits have a value from 1000 to 9999 iff the first is not 0 |
| PostcodeNlProperties.NonNumericPrefix | index.js:62-64 | a postcode starting with anything but white space, a digit or a sign is NaN to `parseInt` |
| PostcodeNlProperties.ViewByPostcodeIntendedDigits | index.js:62-72 | with `isNaN`, a postcode starting with four digits is accepted iff it does not start with 0, and otherwise is out of range |
| PostcodeNlProperties.ViewByPostcodeIntendedAccepts | index.js:62-72 | with `isNaN`, a postcode starting with four digits passes iff its first digit is not 0 |
| PostcodeNlProperties.ViewByPostcodeIntendedOutOfRange | index.js:69-72 | with `isNaN`, a postcode starting with four digits and a 0 is reported out of range |
| PostcodeNlProperties.ViewByPostcodeIntendedNotANumber | index.js:62-67 | with `isNaN`, a postcode that does not start like a number is reported as not a number |
| PostcodeNlProperties.PostcodeRangesIntendedDigits | index.js:174-184 | with `isNaN`, a ranges postcode starting with four digits is accepted iff it does not start with 0, and otherwise is out of range |
| PostcodeNlProperties.PostcodeRangesIntendedNotANumber | index.js:174-179 | with `isNaN`, a ranges postcode that does not start like a number is reported as not a number |
| PostcodeNlProperties.ViewByPostcodeTypo | index.js:64 | a well-formed postcode such as 1234AB is a ReferenceError as written, but is accepted with `isNaN` |
| PostcodeNlProperties.PostcodeRangesTypo | index.js:176 | the same for `postcodeRanges` |

## Left out

- The `needle` GET, `async`/`await` and transport failures (index.js:35-40). These are network I/O through a foreign library. The GET is the parameter `get`, from URL and credentials to the decoded body, and a transport failure has no counterpart.
- The error's timing. A failed argument check throws synchronously, while `_runClient` rejects its promise. Both are modelled as `Failure`.
- Base64 encoding by `Buffer` (index.js:20). `Auth` keeps the text `key:secret` that would be encoded.
- `packageJson.version` (index.js:17), a file read. It is a parameter of the constructor.
- PostcodeNl.Client.constructor: requires truthy credentials. The throwing path of the source constructor is `NewClient`, which checks first and fails with the source's error.
- Values other than `undefined`, `null`, strings and integers: booleans, objects, arrays, and non-integer or non-finite numbers. This holds for arguments (a non-integer latitude or longitude cannot be passed) and for the property values of a response body (a body's nested objects, arrays, booleans and fractional numbers have no counterpart). Floating-point arithmetic is not modelled.
- JsValues.StringToNumber: reads strings with an exponent, `Infinity`, or a `0x`/`0o`/`0b` prefix as NaN, where JavaScript reads them as numbers. It also reads a decimal string as an exact real and does not round it to a double: `"300000.00000000000000001"` rounds to 300000 in JavaScript and passes index.js:120, while `ViewByRdRequest(Str("300000.00000000000000001"), Int(400000))` reports the rdX range error.
- PostcodeNl.Prefix4: counts characters as code points where `substr` counts UTF-16 units, and `JsStrings.IndexOf` does the same; on the strings these reach, no result here depends on the difference.
- JsValues.IntToString: writes every integer in plain decimal. JavaScript switches to exponent notation from 10^21 in magnitude.
- Response bodies that are not objects. A string or null body makes `'exception' in` throw; a Buffer body is returned as it is. The model's body is always a map of properties.
- `Object.keys` order. The parameters are a sequence in the order they are written. JavaScript would list integer-like keys first, but every key here is a plain name.
- A concrete URL such as `.../rest/addresses/rd/100000/400000` is derived only as an instance of `ViewByRdUrl`. It is not stated on its own, because that lemma states the URL for every accepted pair of coordinates.
- PostcodeNlProperties.ViewByRdDigitString: states only that the checks pass. `ViewByRdRequest`'s own contract gives the template, and `ViewByRdFollowsChecks` gives the request.
- URL lemmas only under conditions. `MatchExactUrl` and `ViewByPostcodeIntendedUrl` require every value but the last to be free of `{`, and all of these and `PostcodeRangesIntendedUrl` require values free of `$`. A `{` in a value before the last can let its text be taken for a later placeholder, and a `$` is expanded by `replace`. `JsStrings.Expand` models that expansion, and no lemma states the resulting URL.
- An error classification with status classes and an unknown-error fallback. Nothing of the kind is in `index.js`.

## Findings

| source | as written | input that shows it | evidently intended | confidence | as-written member | corrected member |
|---|---|---|---|---|---|---|
| index.js:64 | `isNan(postcodeNumber)` calls a global that does not exist, so every string postcode past the presence checks throws a ReferenceError and the range check at index.js:69 is unreachable | `viewByPostcode("1234AB", 1)` | `isNaN(postcodeNumber)`: 1234AB passes and the lookup is sent | not executed | PostcodeNlProperties.ViewByPostcodeTypo | PostcodeNlProperties.ViewByPostcodeIntendedDigits |
| index.js:176 | the same `isNan` call in `postcodeRanges`, so the range check at index.js:181 is unreachable | `postcodeRanges("1234AB")` | `isNaN(postcodeNumber)`: 1234AB passes and the lookup is sent | not executed | PostcodeNlProperties.PostcodeRangesTypo | PostcodeNlProperties.PostcodeRangesIntendedDigits |

`PostcodeNl.ViewByPostcodeRequest` and `PostcodeNl.PostcodeRangesRequest` model the code as written. `PostcodeNl.ViewByPostcodeRequestIntended` and `PostcodeNl.PostcodeRangesRequestIntended` give the corrected checks, which the `...Intended` client methods and URL lemmas use. `ViewByPostcodeIntendedNotANumber` and `PostcodeRangesIntendedNotANumber` show that the number check becomes reachable again.
