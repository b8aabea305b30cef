/**
 * render_template of src/template_utils.py: every `${KEY}` of the template is
 * replaced by str(value), one entry of the values dict after the other, with
 * Python's str.replace (leftmost, non-overlapping occurrences).
 */
module Templates {
  import opened Text

  /** A template value: the dicts of the manager hold strings and ints. */
  datatype Value = StrValue(s: string) | IntValue(i: int)

  /** A parsed manifest, render_yaml_template(path, values); its YAML text is not modelled. */
  datatype Manifest = Rendered(templatePath: string, values: seq<(string, Value)>)

  /** str(value). */
  function Str(v: Value): string {
    match v
    case StrValue(s) => s
    case IntValue(i) => IntToString(i)
  }

  /** f"${{{key}}}". */
  function Placeholder(key: string): (p: string)
    ensures |p| == |key| + 3 && p[0] == '$' && p[1] == '{' && p[|p| - 1] == '}'
    ensures p[2..|p| - 1] == key
  {
    "${" + key + "}"
  }

  /**
   * s.replace(pat, rep) for a non-empty pat: replacing a pattern by itself changes
   * nothing, and a replacement of the pattern's length keeps the length.
   */
  function ReplaceAll(s: string, pat: string, rep: string): (r: string)
    requires |pat| > 0
    ensures rep == pat ==> r == s
    ensures |rep| == |pat| ==> |r| == |s|
    decreases |s|
  {
    if |s| < |pat| then s
    else if s[..|pat|] == pat then rep + ReplaceAll(s[|pat|..], pat, rep)
    else [s[0]] + ReplaceAll(s[1..], pat, rep)
  }

  /**
   * The result of the loop over values.items(), in insertion order; a last entry
   * whose value is its own placeholder changes nothing.
   */
  function Render(template: string, values: seq<(string, Value)>): (r: string)
    ensures values != [] && Str(values[|values| - 1].1) == Placeholder(values[|values| - 1].0)
            ==> r == Render(template, values[..|values| - 1])
    decreases |values|
  {
    if values == [] then template
    else
      var last := values[|values| - 1];
      ReplaceAll(Render(template, values[..|values| - 1]), Placeholder(last.0), Str(last.1))
  }

  method RenderTemplate(template: string, values: seq<(string, Value)>) returns (rendered: string)
    ensures rendered == Render(template, values)
  {
    rendered := template;
    for i := 0 to |values|
      invariant rendered == Render(template, values[..i])
    {
      var (key, value) := values[i];
      var placeholder := Placeholder(key);
      rendered := ReplaceAll(rendered, placeholder, Str(value));
      assert values[..i + 1][..i] == values[..i];
    }
    assert values[..|values|] == values;
  }

  lemma RenderWithoutValues(template: string)
    ensures Render(template, []) == template
  {
  }

  /** No `${` anywhere in s. */
  predicate NoPlaceholderStart(s: string) {
    forall i :: 0 <= i < |s| - 1 ==> !(s[i] == '$' && s[i + 1] == '{')
  }

  lemma {:induction false} ReplaceWithoutPlaceholders(s: string, key: string, rep: string)
    requires NoPlaceholderStart(s)
    ensures ReplaceAll(s, Placeholder(key), rep) == s
    decreases |s|
  {
    var p := Placeholder(key);
    if |s| >= |p| {
      assert s[..|p|] != p by {
        assert !(s[0] == '$' && s[1] == '{');
      }
      ReplaceWithoutPlaceholders(s[1..], key, rep);
    }
  }

  lemma {:induction false} RenderWithoutPlaceholders(template: string, values: seq<(string, Value)>)
    requires NoPlaceholderStart(template)
    ensures Render(template, values) == template
    decreases |values|
  {
    if values != [] {
      var last := values[|values| - 1];
      RenderWithoutPlaceholders(template, values[..|values| - 1]);
      ReplaceWithoutPlaceholders(template, last.0, Str(last.1));
    }
  }

  /** str(i): the decimal digits of |i|, after a minus sign when i is negative; the digits read back. */
  lemma IntValueIsDecimal(i: int)
    ensures i >= 0 ==> Str(IntValue(i)) == NatToString(i) && ParseNat(Str(IntValue(i))) == i
    ensures i < 0 ==> Str(IntValue(i)) == "-" + NatToString(-i) && ParseNat(Str(IntValue(i))[1..]) == -i
  {
    if i >= 0 {
      ParseNatToString(i);
    } else {
      ParseNatToString(-i);
      assert ("-" + NatToString(-i))[1..] == NatToString(-i);
    }
  }

  lemma PortRendersAsDecimal()
    ensures Str(IntValue(7077)) == "7077"
  {
    assert NatToString(7) == "7";
    assert NatToString(70) == "70";
    assert NatToString(707) == "707";
  }

  // ---------------------------------------------------------------------
  // Well-formed templates: literal text without '$', and placeholders whose
  // key has no '$', '{' or '}'. Over these, rendering is substitution.
  // ---------------------------------------------------------------------

  datatype Piece = Lit(t: string) | Hole(key: string)

  predicate NoDollar(s: string) {
    forall i :: 0 <= i < |s| ==> s[i] != '$'
  }

  predicate PlainKey(k: string) {
    forall i :: 0 <= i < |k| ==> k[i] != '$' && k[i] != '{' && k[i] != '}'
  }

  predicate PieceOk(p: Piece) {
    match p
    case Lit(t) => NoDollar(t)
    case Hole(k) => PlainKey(k)
  }

  predicate WellFormed(ps: seq<Piece>) {
    forall i :: 0 <= i < |ps| ==> PieceOk(ps[i])
  }

  function PieceText(p: Piece): string {
    match p
    case Lit(t) => t
    case Hole(k) => Placeholder(k)
  }

  function Flatten(ps: seq<Piece>): string
    decreases |ps|
  {
    if ps == [] then "" else PieceText(ps[0]) + Flatten(ps[1..])
  }

  /** Fill every hole named key with the text rep. */
  function Subst(ps: seq<Piece>, key: string, rep: string): seq<Piece> {
    seq(|ps|, i requires 0 <= i < |ps| => if ps[i] == Hole(key) then Lit(rep) else ps[i])
  }

  /** Subst for each entry of values in turn, as Render does on the text. */
  function SubstAll(ps: seq<Piece>, values: seq<(string, Value)>): seq<Piece>
    decreases |values|
  {
    if values == [] then ps
    else
      var last := values[|values| - 1];
      Subst(SubstAll(ps, values[..|values| - 1]), last.0, Str(last.1))
  }

  predicate ValuesOk(values: seq<(string, Value)>) {
    forall i :: 0 <= i < |values| ==> PlainKey(values[i].0) && NoDollar(Str(values[i].1))
  }

  function KeysOf(values: seq<(string, Value)>): set<string> {
    set i | 0 <= i < |values| :: values[i].0
  }

  /** Whether p occurs anywhere in s. */
  predicate Contains(s: string, p: string)
    decreases |s|
  {
    |p| <= |s| && (s[..|p|] == p || (|s| > 0 && Contains(s[1..], p)))
  }

  lemma {:induction false} ReplaceAfterText(t: string, b: string, pat: string, rep: string)
    requires NoDollar(t) && |pat| > 0 && pat[0] == '$'
    ensures ReplaceAll(t + b, pat, rep) == t + ReplaceAll(b, pat, rep)
    decreases |t|
  {
    var s := t + b;
    if t == [] {
      assert s == b;
    } else if |s| < |pat| {
      assert ReplaceAll(b, pat, rep) == b;
    } else {
      assert s[..|pat|] != pat by {
        assert s[0] == t[0] != '$';
      }
      assert s[1..] == t[1..] + b;
      ReplaceAfterText(t[1..], b, pat, rep);
      ReplaceSkipsFirst(s, pat, rep);
      ConsAppend(t, ReplaceAll(b, pat, rep));
    }
  }

  lemma {:induction false} ContainsAfterText(t: string, b: string, pat: string)
    requires NoDollar(t) && |pat| > 0 && pat[0] == '$'
    ensures Contains(t + b, pat) <==> Contains(b, pat)
    decreases |t|
  {
    var s := t + b;
    if t == [] {
      assert s == b;
    } else if |s| < |pat| {
      assert !Contains(b, pat);
    } else {
      assert s[..|pat|] != pat by {
        assert s[0] == t[0] != '$';
      }
      assert s[1..] == t[1..] + b;
      ContainsAfterText(t[1..], b, pat);
    }
  }

  /** Two different plain keys: neither placeholder is a prefix of a string starting with the other. */
  lemma PlaceholderNotPrefix(x: string, k: string, s: string)
    requires PlainKey(x) && PlainKey(k) && x != k
    requires |s| >= |Placeholder(k)| && |s| >= |Placeholder(x)| && s[..|Placeholder(x)|] == Placeholder(x)
    ensures s[..|Placeholder(k)|] != Placeholder(k)
  {
    var px, pk := Placeholder(x), Placeholder(k);
    if |k| < |x| {
      assert s[|k| + 2] == x[|k|] != '}' == pk[|k| + 2];
    } else if |k| > |x| {
      assert s[|x| + 2] == '}' != k[|x|] == pk[|x| + 2];
    } else {
      assert px[2..|px| - 1] == x != k == pk[2..|pk| - 1];
    }
  }

  /** Where the pattern does not start the text, its first character is kept. */
  lemma ReplaceSkipsFirst(s: string, pat: string, rep: string)
    requires |pat| > 0 && |s| >= |pat| && s[..|pat|] != pat
    ensures ReplaceAll(s, pat, rep) == [s[0]] + ReplaceAll(s[1..], pat, rep)
  {
  }

  /** Text whose head does not start the pattern and whose rest has no '$' is copied through. */
  lemma ReplaceAfterHead(h: string, b: string, pat: string, rep: string)
    requires |h| > 0 && NoDollar(h[1..]) && |pat| > 0 && pat[0] == '$'
    requires |h + b| < |pat| || (h + b)[..|pat|] != pat
    ensures ReplaceAll(h + b, pat, rep) == h + ReplaceAll(b, pat, rep)
  {
    if |h + b| < |pat| {
      assert ReplaceAll(b, pat, rep) == b;
    } else {
      ReplaceAfterLongHead(h, b, pat, rep);
    }
  }

  lemma ReplaceAfterLongHead(h: string, b: string, pat: string, rep: string)
    requires |h| > 0 && NoDollar(h[1..]) && |pat| > 0 && pat[0] == '$'
    requires |h + b| >= |pat| && (h + b)[..|pat|] != pat
    ensures ReplaceAll(h + b, pat, rep) == h + ReplaceAll(b, pat, rep)
  {
    var s, t := h + b, h[1..];
    ReplaceSkipsFirst(s, pat, rep);
    assert s[0] == h[0] && s[1..] == t + b;
    ReplaceAfterText(t, b, pat, rep);
    ConsAppend(h, ReplaceAll(b, pat, rep));
  }

  lemma ConsAppend(h: string, x: string)
    requires |h| > 0
    ensures [h[0]] + (h[1..] + x) == h + x
  {
    assert [h[0]] + h[1..] == h;
  }

  /** A placeholder of another key is skipped over as plain text. */
  lemma ReplaceAfterOtherHole(x: string, k: string, b: string, rep: string)
    requires PlainKey(x) && PlainKey(k) && x != k
    ensures ReplaceAll(Placeholder(x) + b, Placeholder(k), rep) == Placeholder(x) + ReplaceAll(b, Placeholder(k), rep)
  {
    var px, pk := Placeholder(x), Placeholder(k);
    var s := px + b;
    if |s| >= |pk| {
      assert s[..|px|] == px;
      PlaceholderNotPrefix(x, k, s);
    }
    assert NoDollar(px[1..]) by {
      assert px[1..] == "{" + x + "}";
    }
    ReplaceAfterHead(px, b, pk, rep);
  }

  lemma ReplaceAfterHole(x: string, k: string, b: string, rep: string)
    requires PlainKey(x) && PlainKey(k)
    ensures ReplaceAll(Placeholder(x) + b, Placeholder(k), rep)
         == (if x == k then rep else Placeholder(x)) + ReplaceAll(b, Placeholder(k), rep)
  {
    if x == k {
      var s, pk := Placeholder(x) + b, Placeholder(k);
      assert s[..|pk|] == pk && s[|pk|..] == b;
    } else {
      ReplaceAfterOtherHole(x, k, b, rep);
    }
  }

  /** An occurrence in the tail is an occurrence in the whole. */
  lemma {:induction false} ContainsSuffix(a: string, b: string, p: string)
    requires Contains(b, p)
    ensures Contains(a + b, p)
    decreases |a|
  {
    if a == [] {
      assert a + b == b;
    } else {
      ContainsSuffix(a[1..], b, p);
      assert (a + b)[1..] == a[1..] + b;
      assert |p| <= |b| <= |a + b|;
    }
  }

  /**
   * Replacing the placeholder of one plain key never destroys an occurrence of the
   * placeholder of another: no occurrence of `${k}` can overlap one of `${x}`.
   */
  lemma {:induction false} ReplaceKeepsOther(s: string, k: string, rep: string, x: string)
    requires PlainKey(x) && PlainKey(k) && x != k
    requires Contains(s, Placeholder(x))
    ensures Contains(ReplaceAll(s, Placeholder(k), rep), Placeholder(x))
    decreases |s|
  {
    var px, pk := Placeholder(x), Placeholder(k);
    if s[..|px|] == px {
      var b := s[|px|..];
      assert s == px + b;
      ReplaceAfterOtherHole(x, k, b, rep);
      var r := px + ReplaceAll(b, pk, rep);
      assert r[..|px|] == px;
    } else if |s| < |pk| {
      assert ReplaceAll(s, pk, rep) == s;
    } else if s[..|pk|] == pk {
      var rest := s[|pk|..];
      assert Contains(s[1..], px);
      assert s[1..] == pk[1..] + rest;
      assert NoDollar(pk[1..]) by {
        assert pk[1..] == "{" + k + "}";
      }
      ContainsAfterText(pk[1..], rest, px);
      ReplaceKeepsOther(rest, k, rep, x);
      ContainsSuffix(rep, ReplaceAll(rest, pk, rep), px);
    } else {
      assert Contains(s[1..], px);
      ReplaceSkipsFirst(s, pk, rep);
      ReplaceKeepsOther(s[1..], k, rep, x);
      ContainsSuffix([s[0]], ReplaceAll(s[1..], pk, rep), px);
    }
  }

  /**
   * For any template and any values, a placeholder of a plain key that is not
   * supplied stays in the output when the supplied keys are plain too.
   */
  lemma {:induction false} UnknownPlaceholderStays(t: string, values: seq<(string, Value)>, x: string)
    requires PlainKey(x) && x !in KeysOf(values)
    requires forall i :: 0 <= i < |values| ==> PlainKey(values[i].0)
    requires Contains(t, Placeholder(x))
    ensures Contains(Render(t, values), Placeholder(x))
    decreases |values|
  {
    if values != [] {
      var init, last := values[..|values| - 1], values[|values| - 1];
      KeysOfSnoc(values);
      forall i | 0 <= i < |init| ensures PlainKey(init[i].0) {
        assert init[i] == values[i];
      }
      UnknownPlaceholderStays(t, init, x);
      ReplaceKeepsOther(Render(t, init), last.0, Str(last.1), x);
    }
  }

  lemma ContainsAfterHole(x: string, k: string, b: string)
    requires PlainKey(x) && PlainKey(k)
    ensures Contains(Placeholder(x) + b, Placeholder(k)) <==> x == k || Contains(b, Placeholder(k))
  {
    var s, px, pk := Placeholder(x) + b, Placeholder(x), Placeholder(k);
    if x == k {
      assert s[..|pk|] == pk;
    } else if |s| >= |pk| {
      assert s[..|px|] == px;
      PlaceholderNotPrefix(x, k, s);
      var tail := px[1..];
      assert s[1..] == tail + b;
      assert NoDollar(tail) by {
        assert tail == "{" + x + "}";
      }
      ContainsAfterText(tail, b, pk);
    }
  }

  /** On a well-formed template, replacing one placeholder fills exactly the holes of that key. */
  lemma {:induction false} ReplaceIsSubst(ps: seq<Piece>, key: string, rep: string)
    requires WellFormed(ps) && PlainKey(key)
    ensures ReplaceAll(Flatten(ps), Placeholder(key), rep) == Flatten(Subst(ps, key, rep))
    decreases |ps|
  {
    if ps != [] {
      var rest := Flatten(ps[1..]);
      assert Subst(ps, key, rep)[1..] == Subst(ps[1..], key, rep);
      ReplaceIsSubst(ps[1..], key, rep);
      match ps[0]
      case Lit(t) =>
        ReplaceAfterText(t, rest, Placeholder(key), rep);
      case Hole(x) =>
        ReplaceAfterHole(x, key, rest, rep);
    }
  }

  /** In a well-formed template, a placeholder occurs in the text exactly when a hole of that key is present. */
  lemma {:induction false} ContainsIffHole(ps: seq<Piece>, key: string)
    requires WellFormed(ps) && PlainKey(key)
    ensures Contains(Flatten(ps), Placeholder(key)) <==> Hole(key) in ps
    decreases |ps|
  {
    if ps == [] {
      assert !Contains("", Placeholder(key));
    } else {
      var rest := Flatten(ps[1..]);
      ContainsIffHole(ps[1..], key);
      assert Hole(key) in ps <==> ps[0] == Hole(key) || Hole(key) in ps[1..];
      match ps[0]
      case Lit(t) =>
        ContainsAfterText(t, rest, Placeholder(key));
      case Hole(x) =>
        ContainsAfterHole(x, key, rest);
    }
  }

  lemma HoleAfterSubst(ps: seq<Piece>, key: string, rep: string, x: string)
    ensures Hole(x) in Subst(ps, key, rep) <==> Hole(x) in ps && x != key
  {
    var q := Subst(ps, key, rep);
    if Hole(x) in q {
      var i :| 0 <= i < |q| && q[i] == Hole(x);
      assert ps[i] == Hole(x);
    }
    if Hole(x) in ps && x != key {
      var i :| 0 <= i < |ps| && ps[i] == Hole(x);
      assert q[i] == Hole(x);
    }
  }

  lemma ValuesOkPrefix(values: seq<(string, Value)>, n: nat)
    requires ValuesOk(values) && n <= |values|
    ensures ValuesOk(values[..n])
  {
    forall i | 0 <= i < n ensures PlainKey(values[..n][i].0) && NoDollar(Str(values[..n][i].1)) {
      assert values[..n][i] == values[i];
    }
  }

  lemma KeysOfSnoc(values: seq<(string, Value)>)
    requires values != []
    ensures KeysOf(values) == KeysOf(values[..|values| - 1]) + {values[|values| - 1].0}
  {
    var init := values[..|values| - 1];
    forall y | y in KeysOf(values) ensures y in KeysOf(init) + {values[|values| - 1].0} {
      var i :| 0 <= i < |values| && values[i].0 == y;
      if i < |init| { assert init[i] == values[i]; }
    }
    forall y | y in KeysOf(init) ensures y in KeysOf(values) {
      var i :| 0 <= i < |init| && init[i].0 == y;
      assert values[i] == init[i];
    }
  }

  /** Rendering a well-formed template with '$'-free values is substitution on its pieces. */
  lemma {:induction false} RenderIsSubstAll(ps: seq<Piece>, values: seq<(string, Value)>)
    requires WellFormed(ps) && ValuesOk(values)
    ensures WellFormed(SubstAll(ps, values))
    ensures Render(Flatten(ps), values) == Flatten(SubstAll(ps, values))
    ensures forall x :: Hole(x) in SubstAll(ps, values) <==> Hole(x) in ps && x !in KeysOf(values)
    decreases |values|
  {
    if values != [] {
      var init, last := values[..|values| - 1], values[|values| - 1];
      ValuesOkPrefix(values, |values| - 1);
      RenderIsSubstAll(ps, init);
      var q := SubstAll(ps, init);
      var rep := Str(last.1);
      assert PlainKey(last.0) && NoDollar(rep);
      ReplaceIsSubst(q, last.0, rep);
      KeysOfSnoc(values);
      forall x ensures Hole(x) in Subst(q, last.0, rep) <==> Hole(x) in ps && x !in KeysOf(values) {
        HoleAfterSubst(q, last.0, rep, x);
      }
    }
  }

  /**
   * For a well-formed template and '$'-free values, a placeholder `${x}` is in the
   * output exactly when it was in the template and x is not one of the supplied keys:
   * unknown placeholders are left intact, and none of a supplied key remains.
   */
  lemma RenderedPlaceholders(ps: seq<Piece>, values: seq<(string, Value)>, x: string)
    requires WellFormed(ps) && ValuesOk(values) && PlainKey(x)
    ensures Contains(Render(Flatten(ps), values), Placeholder(x))
        <==> Contains(Flatten(ps), Placeholder(x)) && x !in KeysOf(values)
  {
    RenderIsSubstAll(ps, values);
    ContainsIffHole(SubstAll(ps, values), x);
    ContainsIffHole(ps, x);
  }

  /** Without the well-formedness premise, str.replace can splice a new placeholder together. */
  lemma SplicedPlaceholder()
    ensures Render("${${K}}", [("K", StrValue("K"))]) == "${K}"
  {
    var s := "${${K}}";
    var p := Placeholder("K");
    assert Render(s, []) == s;
    assert s[..|p|] != p;
    assert s[1..][..|p|] != p;
    assert s[2..][..|p|] == p && s[2..][|p|..] == "}";
    assert ReplaceAll("}", p, "K") == "}";
    assert ReplaceAll(s[2..], p, "K") == "K}";
    assert ReplaceAll(s[1..], p, "K") == "{K}";
  }

  /**
   * Without '$'-free values the same happens on a well-formed template: the value
   * "a$" of A meets the text "{B}" that follows its placeholder, and `${B}` appears
   * after B's own entry was applied.
   */
  lemma DollarValueSplices()
    ensures WellFormed(SplicingTemplate()) && Flatten(SplicingTemplate()) == "${A}{B}"
    ensures Render("${A}{B}", [("B", StrValue("x")), ("A", StrValue("a$"))]) == "a${B}"
  {
    SplicingTemplateWellFormed();
    var s := "${A}{B}";
    var values := [("B", StrValue("x")), ("A", StrValue("a$"))];
    var pa := Placeholder("A");
    var first := Render(s, values[..1]);
    FirstEntryMisses();
    assert values[..1] == [("B", StrValue("x"))];
    assert first == s;
    assert Render(s, values) == ReplaceAll(first, pa, "a$");
    assert s[..4] == pa && s[4..] == "{B}";
  }

  function SplicingTemplate(): seq<Piece> {
    [Hole("A"), Lit("{B}")]
  }

  lemma SplicingTemplateWellFormed()
    ensures WellFormed(SplicingTemplate()) && Flatten(SplicingTemplate()) == "${A}{B}"
  {
    var ps := SplicingTemplate();
    assert PlainKey("A") && NoDollar("{B}");
    assert PieceOk(ps[0]) && PieceOk(ps[1]);
    assert ps[1..][1..] == [];
    assert Flatten(ps[1..]) == "{B}";
  }

  /** "${A}{B}" holds no `${B}`, so B's entry leaves it as it is. */
  lemma FirstEntryMisses()
    ensures Render("${A}{B}", [("B", StrValue("x"))]) == "${A}{B}"
  {
    var s := "${A}{B}";
    var pb := Placeholder("B");
    assert [("B", StrValue("x"))][..0] == [];
    assert s[4..] == "{B}" && s[3..][..4] != pb && s[3..][1..] == s[4..];
    assert s[2..][..4] != pb && s[2..][1..] == s[3..];
    assert s[1..][..4] != pb && s[1..][1..] == s[2..];
    assert s[..4][2] == 'A' && pb[2] == 'B';
  }
}
