/**
 * What `_formatUrl` (index.js:23-30) computes: each parameter, in the order
 * `Object.keys` lists them, rewrites the first `{key}` of the template into
 * `String(value)`; then one leading `/` is dropped and the base URL and a
 * `/` are put in front.
 */
module UrlTemplate {
  import opened Wrappers
  import opened JsStrings
  import opened JsValues

  /** The parameter object, as the key/value pairs `Object.keys` visits, in that order. */
  type Params = seq<(string, JsValue)>

  /** `'\{' + key + '\}'`: the escapes are redundant in a string literal, so this is `{key}`. */
  function Placeholder(key: string): (p: string)
    ensures |p| == |key| + 2 && p[0] == '{' && p[|p| - 1] == '}'
    ensures p[1..|p| - 1] == key
  {
    "{" + key + "}"
  }

  /** The loop of `_formatUrl` (index.js:24-27), written as a fold over the parameters. */
  function SubstituteAll(url: string, params: Params): string
    decreases |params|
  {
    if params == [] then url
    else SubstituteAll(ReplaceFirst(url, Placeholder(params[0].0), ToStr(params[0].1)), params[1..])
  }

  /** The URL `_formatUrl(template, params)` returns for a client whose base URL is `baseUrl`. */
  function FormattedUrl(baseUrl: string, template: string, params: Params): string {
    baseUrl + "/" + StripLeadingSlash(SubstituteAll(template, params))
  }

  /** Text that neither starts a placeholder nor holds a `$`-pattern once substituted. */
  predicate Inert(s: string) {
    '{' !in s && '$' !in s
  }

  /** A name that can take part in a placeholder and nothing else: it holds no brace. */
  predicate BraceFree(name: string) {
    '{' !in name && '}' !in name
  }

  /** The formatted URL always starts with the base URL and a slash. */
  lemma FormattedUrlPrefix(baseUrl: string, template: string, params: Params)
    ensures |FormattedUrl(baseUrl, template, params)| > |baseUrl|
    ensures FormattedUrl(baseUrl, template, params)[..|baseUrl| + 1] == baseUrl + "/"
  {
    var rest := StripLeadingSlash(SubstituteAll(template, params));
    assert (baseUrl + "/" + rest)[..|baseUrl| + 1] == baseUrl + "/";
  }

  /**
   * With no parameters the template is only re-rooted: one leading slash is
   * dropped, so a template starting with `//` keeps one of them.
   */
  lemma FormattedUrlWithoutParams(baseUrl: string, template: string)
    ensures FormattedUrl(baseUrl, template, []) ==
      baseUrl + "/" + (if |template| > 0 && template[0] == '/' then template[1..] else template)
    ensures FormattedUrl(baseUrl, "/" + template, []) == baseUrl + "/" + template
    ensures FormattedUrl(baseUrl, "//" + template, []) == baseUrl + "//" + template
  {
    assert ("/" + template)[1..] == template;
    assert ("//" + template)[1..] == "/" + template;
    assert baseUrl + "/" + ("/" + template) == baseUrl + "//" + template;
  }

  /** Substituting two parameter lists one after the other is substituting their concatenation. */
  lemma {:induction false} SubstituteAllConcat(url: string, first: Params, second: Params)
    ensures SubstituteAll(url, first + second) == SubstituteAll(SubstituteAll(url, first), second)
    decreases |first|
  {
    if first == [] {
      assert first + second == second;
    } else {
      assert (first + second)[1..] == first[1..] + second;
      SubstituteAllConcat(ReplaceFirst(url, Placeholder(first[0].0), ToStr(first[0].1)), first[1..], second);
    }
  }

  /** A template in which no key's placeholder occurs comes out unchanged. */
  lemma {:induction false} SubstituteAllWithoutPlaceholders(url: string, params: Params)
    requires forall i :: 0 <= i < |params| ==> IndexOf(url, Placeholder(params[i].0)).None?
    ensures SubstituteAll(url, params) == url
    decreases |params|
  {
    if params != [] {
      assert ReplaceFirst(url, Placeholder(params[0].0), ToStr(params[0].1)) == url;
      assert forall i :: 0 <= i < |params[1..]| ==> params[1..][i] == params[i + 1];
      SubstituteAllWithoutPlaceholders(url, params[1..]);
    }
  }

  /** Two placeholders with different brace-free names can never overlap. */
  lemma PlaceholdersDoNotOverlap(s: string, key: string, name: string, j: nat, i: nat)
    requires BraceFree(key) && BraceFree(name) && key != name
    requires OccursAt(s, Placeholder(key), j) && OccursAt(s, Placeholder(name), i)
    ensures i + |Placeholder(name)| <= j || j + |Placeholder(key)| <= i
  {
    var p, q := Placeholder(key), Placeholder(name);
    forall k | j < k < j + |p| ensures s[k] != '{' && (k < j + |p| - 1 ==> s[k] != '}') {
      assert s[k] == s[j..j + |p|][k - j];
      PlaceholderInside(key, k - j);
    }
    forall k | i < k < i + |q| ensures s[k] != '{' && (k < i + |q| - 1 ==> s[k] != '}') {
      assert s[k] == s[i..i + |q|][k - i];
      PlaceholderInside(name, k - i);
    }
    assert s[j] == s[j..j + |p|][0] && s[i] == s[i..i + |q|][0];
    assert s[j + |p| - 1] == s[j..j + |p|][|p| - 1] && s[i + |q| - 1] == s[i..i + |q|][|q| - 1];
  }

  /** Past its opening brace, a placeholder of a brace-free name holds no `{`, and only its last character is `}`. */
  lemma PlaceholderInside(key: string, k: nat)
    requires BraceFree(key) && 0 < k < |key| + 2
    ensures Placeholder(key)[k] != '{'
    ensures k < |key| + 1 ==> Placeholder(key)[k] != '}'
  {
    if k < |key| + 1 {
      assert Placeholder(key)[k] == key[k - 1];
    }
  }

  /**
   * A placeholder whose name is not among the keys survives the whole
   * substitution (at the returned index), whatever the values are, provided
   * that names hold no braces.
   */
  lemma {:induction false} UnknownPlaceholderSurvives(url: string, params: Params, name: string, i: nat)
    returns (i': nat)
    requires OccursAt(url, Placeholder(name), i) && BraceFree(name)
    requires forall k :: 0 <= k < |params| ==> BraceFree(params[k].0) && params[k].0 != name
    ensures OccursAt(SubstituteAll(url, params), Placeholder(name), i')
    decreases |params|
  {
    if params == [] {
      i' := i;
    } else {
      var p := Placeholder(params[0].0);
      if IndexOf(url, p).Some? {
        PlaceholdersDoNotOverlap(url, params[0].0, name, IndexOf(url, p).value, i);
      }
      var next := ReplaceFirstKeeps(url, p, ToStr(params[0].1), Placeholder(name), i);
      assert forall k :: 0 <= k < |params[1..]| ==> params[1..][k] == params[k + 1];
      i' := UnknownPlaceholderSurvives(ReplaceFirst(url, p, ToStr(params[0].1)), params[1..], name, next);
    }
  }

  /**
   * Only the first occurrence of a key's placeholder is rewritten: when the
   * placeholder occurs twice, the later occurrence is still there after the
   * key has been substituted, shifted by the length the value adds or takes
   * away when the value holds no `$`.
   */
  lemma OnlyFirstOccurrenceReplaced(url: string, key: string, value: JsValue, i: nat, j: nat)
    returns (j': nat)
    requires OccursAt(url, Placeholder(key), i) && OccursAt(url, Placeholder(key), j)
    requires i + |Placeholder(key)| <= j
    ensures OccursAt(SubstituteAll(url, [(key, value)]), Placeholder(key), j')
    ensures '$' !in ToStr(value) ==> j' == j - |Placeholder(key)| + |ToStr(value)|
  {
    var p := Placeholder(key);
    IndexOfIsLeast(url, p);
    j' := ReplaceFirstKeeps(url, p, ToStr(value), p, j);
    assert [(key, value)][1..] == [];
  }

  // ----- Templates made of literal segments and placeholders -----

  /** `lits[0] + {k0} + lits[1] + {k1} + ... + lits[n]` for the keys of `params`. */
  function Template(lits: seq<string>, params: Params): string
    requires |lits| == |params| + 1
    decreases |params|
  {
    if params == [] then lits[0]
    else lits[0] + Placeholder(params[0].0) + Template(lits[1..], params[1..])
  }

  /** The same text with each placeholder replaced by its value's string form. */
  function Filled(lits: seq<string>, params: Params): string
    requires |lits| == |params| + 1
    decreases |params|
  {
    if params == [] then lits[0]
    else lits[0] + ToStr(params[0].1) + Filled(lits[1..], params[1..])
  }

  /** Text before a `{`-free prefix is untouched by the whole substitution, when no value holds `$`. */
  lemma {:induction false} SubstituteAllBehindBraceFree(a: string, x: string, params: Params)
    requires '{' !in a
    requires forall i :: 0 <= i < |params| ==> '$' !in ToStr(params[i].1)
    ensures SubstituteAll(a + x, params) == a + SubstituteAll(x, params)
    decreases |params|
  {
    if params != [] {
      var p, v := Placeholder(params[0].0), ToStr(params[0].1);
      ReplaceFirstBehindBraceFree(a, x, p, v);
      assert forall i :: 0 <= i < |params[1..]| ==> params[1..][i] == params[i + 1];
      SubstituteAllBehindBraceFree(a, ReplaceFirst(x, p, v), params[1..]);
    }
  }

  /**
   * A template whose literal segments hold no `{`, filled with values that
   * hold no `$` and, all but the last, no `{`, yields exactly the segments
   * with the values between them: on such inputs the substitution is the
   * plain template filling one expects. The last value can hold `{`, since
   * no substitution comes after it.
   */
  lemma {:induction false} FillTemplate(lits: seq<string>, params: Params)
    requires |lits| == |params| + 1
    requires forall i :: 0 <= i < |lits| ==> '{' !in lits[i]
    requires forall i :: 0 <= i < |params| ==> '$' !in ToStr(params[i].1)
    requires forall i :: 0 <= i < |params| - 1 ==> '{' !in ToStr(params[i].1)
    ensures SubstituteAll(Template(lits, params), params) == Filled(lits, params)
    decreases |params|
  {
    if params != [] {
      var p, v := Placeholder(params[0].0), ToStr(params[0].1);
      var rest := Template(lits[1..], params[1..]);
      assert '$' !in v && '{' !in lits[0];
      ReplaceFirstInPlace(lits[0], p, rest, v);
      if |params| == 1 {
        assert params[1..] == [] && lits[1..] == [lits[1]];
      } else {
        assert '{' !in v;
        assert forall i :: 0 <= i < |params[1..]| ==> params[1..][i] == params[i + 1];
        assert forall i :: 0 <= i < |lits[1..]| ==> lits[1..][i] == lits[i + 1];
        SubstituteAllBehindBraceFree(lits[0] + v, rest, params[1..]);
        FillTemplate(lits[1..], params[1..]);
      }
    }
  }
}
