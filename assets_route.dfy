/**
 * `POST /api/assets` (app/api/assets/route.ts): the unit normaliser and the
 * validation chain run before the insert.
 *
 * `normalizeUnit` lowercases its input, deletes every whitespace character
 * and classifies what is left by substring tests into one of the three
 * units the asset table accepts: `ml`, `mg` or `un`.
 *
 * Whitespace is the fixed set JavaScript's `\s` and `trim()` share (the
 * WhiteSpace and LineTerminator code points of ECMA-262); lowercasing is
 * ASCII only.
 */
module AssetsRoute {
  import opened Wrappers

  // ---------------------------------------------------------------------------
  // Characters and strings.

  /** ECMA-262 WhiteSpace and LineTerminator: what `\s` matches and `trim()` removes. */
  predicate IsSpace(c: char) {
    || c == '\t' || c == '\n' || c == '\U{0B}' || c == '\U{0C}' || c == '\r' || c == ' '
    || c == '\U{A0}' || c == '\U{1680}' || ('\U{2000}' <= c <= '\U{200A}')
    || c == '\U{2028}' || c == '\U{2029}' || c == '\U{202F}' || c == '\U{205F}'
    || c == '\U{3000}' || c == '\U{FEFF}'
  }

  predicate AllSpace(s: string) {
    forall i :: 0 <= i < |s| ==> IsSpace(s[i])
  }

  function LowerChar(c: char): char {
    if 'A' <= c <= 'Z' then (c as int + 32) as char else c
  }

  function UpperChar(c: char): char {
    if 'a' <= c <= 'z' then (c as int - 32) as char else c
  }

  /** `toLowerCase()` on ASCII letters. */
  function Lower(s: string): (r: string)
    ensures |r| == |s| && forall i :: 0 <= i < |s| ==> r[i] == LowerChar(s[i])
  {
    seq(|s|, i requires 0 <= i < |s| => LowerChar(s[i]))
  }

  /** `toUpperCase()` on ASCII letters. */
  function Upper(s: string): (r: string)
    ensures |r| == |s| && forall i :: 0 <= i < |s| ==> r[i] == UpperChar(s[i])
  {
    seq(|s|, i requires 0 <= i < |s| => UpperChar(s[i]))
  }

  /** `replace(/\s+/g, '')`: every whitespace character deleted. */
  function StripSpaces(s: string): string
    decreases |s|
  {
    if s == [] then [] else Kept(s[0]) + StripSpaces(s[1..])
  }

  /** What `StripSpaces` keeps of one character. */
  function Kept(c: char): string {
    if IsSpace(c) then [] else [c]
  }

  predicate StartsWith(s: string, prefix: string) {
    |prefix| <= |s| && s[..|prefix|] == prefix
  }

  /** `s.includes(sub)`. */
  predicate Contains(s: string, sub: string)
    decreases |s|
  {
    StartsWith(s, sub) || (s != [] && Contains(s[1..], sub))
  }

  /** `subs.some(k => s.includes(k))`. */
  predicate ContainsAny(s: string, subs: seq<string>)
    decreases |subs|
  {
    subs != [] && (Contains(s, subs[0]) || ContainsAny(s, subs[1..]))
  }

  /** `trimStart()`. */
  function TrimStart(s: string): string
    decreases |s|
  {
    if s != [] && IsSpace(s[0]) then TrimStart(s[1..]) else s
  }

  /** `trimEnd()`. */
  function TrimEnd(s: string): string
    decreases |s|
  {
    if s != [] && IsSpace(s[|s| - 1]) then TrimEnd(s[..|s| - 1]) else s
  }

  /** `trim()`. */
  function Trim(s: string): string {
    TrimEnd(TrimStart(s))
  }

  // ---------------------------------------------------------------------------
  // normalizeUnit (lines 19-27).

  /** The spellings of "unidade" accepted on line 24. */
  const UnitVariants: seq<string> := ["un", "uni", "und", "unid", "unidade", "unidades"]

  /** Line 20: `(raw ?? '').toLowerCase().replace(/\s+/g, '')`. */
  function Clean(raw: Option<string>): string {
    StripSpaces(Lower(raw.GetOr("")))
  }

  function NormalizeUnit(raw: Option<string>): (u: string)
    ensures u in {"ml", "mg", "un"}
  {
    var s := Clean(raw);
    if Contains(s, "ml") then "ml"
    else if Contains(s, "mg") then "mg"
    else if ContainsAny(s, UnitVariants) then "un"
    else "ml"
  }

  // ---------------------------------------------------------------------------
  // Properties of normalizeUnit.

  /** Containing a longer string that starts with `p` means containing `p`. */
  lemma {:induction false} ContainsPrefix(s: string, v: string, p: string)
    requires StartsWith(v, p) && Contains(s, v)
    ensures Contains(s, p)
    decreases |s|
  {
    if StartsWith(s, v) {
      assert s[..|p|] == v[..|p|];
    } else {
      ContainsPrefix(s[1..], v, p);
    }
  }

  /** Every variant starts with "un", so the variant test on line 24 is the test for "un". */
  lemma {:induction false} VariantsMeanUn(s: string)
    ensures ContainsAny(s, UnitVariants) <==> Contains(s, "un")
  {
    var vs := UnitVariants;
    if ContainsAny(s, vs) && !Contains(s, "un") {
      assert vs[1..][1..][1..][1..][1..] == ["unidades"];
      if Contains(s, "uni") { ContainsPrefix(s, "uni", "un"); }
      if Contains(s, "und") { ContainsPrefix(s, "und", "un"); }
      if Contains(s, "unid") { ContainsPrefix(s, "unid", "un"); }
      if Contains(s, "unidade") { ContainsPrefix(s, "unidade", "un"); }
      if Contains(s, "unidades") { ContainsPrefix(s, "unidades", "un"); }
      assert false;
    }
  }

  /**
   * The three results, by the cleaned input `s`: `ml` whenever `s` contains
   * "ml" (even if it also contains "mg"), and also when it contains none of
   * "ml", "mg", "un"; `mg` when it contains "mg" but not "ml"; `un` exactly
   * when it contains "un" and neither "ml" nor "mg".
   */
  lemma {:induction false} NormalizeUnitCases(raw: Option<string>)
    ensures var s := Clean(raw);
      && (NormalizeUnit(raw) == "ml" <==> Contains(s, "ml") || (!Contains(s, "mg") && !Contains(s, "un")))
      && (NormalizeUnit(raw) == "mg" <==> !Contains(s, "ml") && Contains(s, "mg"))
      && (NormalizeUnit(raw) == "un" <==> !Contains(s, "ml") && !Contains(s, "mg") && Contains(s, "un"))
  {
    VariantsMeanUn(Clean(raw));
  }

  lemma {:induction false} ContainsSelf(s: string)
    ensures Contains(s, s)
  {
    assert s[..|s|] == s;
  }

  /** A two-letter string contains no other string of two letters. */
  lemma {:induction false} NotContainsOther(s: string, p: string)
    requires |s| == 2 && |p| == 2 && s != p
    ensures !Contains(s, p)
  {
    assert !StartsWith(s, p) by { assert s[..|p|] == s; }
    var tail := s[1..];
    assert !StartsWith(tail, p);
    assert !Contains(tail[1..], p) by { assert tail[1..] == []; }
    assert !Contains(tail, p);
  }

  /** The three units are their own cleaned form. */
  lemma {:induction false} CleanUnit(u: string)
    requires u in {"ml", "mg", "un"}
    ensures Clean(Some(u)) == u
  {
    assert Lower(u) == u;
    StripNoSpace(u);
  }

  /** Applying `normalizeUnit` to its own result gives that result back. */
  lemma {:induction false} NormalizeUnitIdempotent(raw: Option<string>)
    ensures NormalizeUnit(Some(NormalizeUnit(raw))) == NormalizeUnit(raw)
  {
    var u := NormalizeUnit(raw);
    CleanUnit(u);
    ContainsSelf(u);
    if u != "ml" {
      NotContainsOther(u, "ml");
    }
    if u == "un" {
      NotContainsOther(u, "mg");
      VariantsMeanUn(u);
    }
  }


  lemma {:induction false} LowerAppend(a: string, b: string)
    ensures Lower(a + b) == Lower(a) + Lower(b)
  {
  }

  lemma {:induction false} StripAppend(a: string, b: string)
    ensures StripSpaces(a + b) == StripSpaces(a) + StripSpaces(b)
    decreases |a|
  {
    if a == [] {
      assert a + b == b;
    } else {
      var ab := a + b;
      assert ab[0] == a[0] && ab[1..] == a[1..] + b;
      var head := Kept(a[0]);
      var left := StripSpaces(a[1..]);
      var right := StripSpaces(b);
      StripAppend(a[1..], b);
      assert StripSpaces(ab) == head + (left + right);
      assert StripSpaces(a) == head + left;
      assert head + (left + right) == (head + left) + right;
    }
  }

  lemma {:induction false} StripAllSpace(w: string)
    requires AllSpace(w)
    ensures StripSpaces(w) == []
    decreases |w|
  {
    if w != [] {
      StripAllSpace(w[1..]);
    }
  }

  lemma {:induction false} LowerKeepsSpace(w: string)
    requires AllSpace(w)
    ensures AllSpace(Lower(w))
  {
    forall i | 0 <= i < |w|
      ensures IsSpace(Lower(w)[i])
    {
      assert IsSpace(w[i]);
    }
  }

  /** Deleting whitespace from the cleaned input: `a + w + b` cleans as `a + b` when `w` is all whitespace. */
  lemma {:induction false} CleanSkipsSpace(a: string, w: string, b: string)
    requires AllSpace(w)
    ensures StripSpaces(Lower(a + w + b)) == StripSpaces(Lower(a + b))
  {
    var la, lw, lb := Lower(a), Lower(w), Lower(b);
    LowerAppend(a + w, b);
    LowerAppend(a, w);
    LowerAppend(a, b);
    LowerKeepsSpace(w);
    StripAllSpace(lw);
    StripAppend(la + lw, lb);
    StripAppend(la, lw);
    StripAppend(la, lb);
    assert StripSpaces(la + lw) == StripSpaces(la);
  }

  /** Whitespace anywhere in the input does not change the result: "2 ML" and "2ML" classify alike. */
  lemma {:induction false} SpacesIgnored(a: string, w: string, b: string)
    requires AllSpace(w)
    ensures NormalizeUnit(Some(a + w + b)) == NormalizeUnit(Some(a + b))
  {
    CleanSkipsSpace(a, w, b);
    assert Clean(Some(a + w + b)) == Clean(Some(a + b));
  }

  /** Letter case does not change the result. */
  lemma {:induction false} CaseIgnored(s: string)
    ensures NormalizeUnit(Some(Upper(s))) == NormalizeUnit(Some(s))
  {
    assert Lower(Upper(s)) == Lower(s);
  }

  lemma {:induction false} StripNoSpace(s: string)
    requires forall i :: 0 <= i < |s| ==> !IsSpace(s[i])
    ensures StripSpaces(s) == s
    decreases |s|
  {
    if s != [] {
      StripNoSpace(s[1..]);
      assert Kept(s[0]) == [s[0]];
    }
  }

  /** "2 ML" is millilitres: the space is deleted and the case ignored. */
  lemma {:induction false} TwoMl()
    ensures NormalizeUnit(Some("2 ML")) == "ml"
  {
    assert "2 ML" == "2" + " " + "ML";
    SpacesIgnored("2", " ", "ML");
    assert "2" + "ML" == "2ML";
    CleanTwoMl();
    assert StartsWith("2ml"[1..], "ml");
  }

  lemma {:induction false} CleanTwoMl()
    ensures Clean(Some("2ML")) == "2ml"
  {
    assert Lower("2ML") == "2ml";
    StripNoSpace("2ml");
  }

  /** Empty and missing input default to millilitres. */
  lemma {:induction false} EmptyIsMl()
    ensures NormalizeUnit(Some("")) == "ml" && NormalizeUnit(None) == "ml"
  {
    assert Clean(None) == "" && Clean(Some("")) == "";
    VariantsMeanUn("");
  }

  // ---------------------------------------------------------------------------
  // trim.

  /** A string trims to nothing exactly when it is all whitespace. */
  lemma {:induction false} TrimEmpty(s: string)
    ensures Trim(s) == "" <==> AllSpace(s)
  {
    TrimStartAll(s);
    if TrimStart(s) != "" {
      TrimEndKeepsFirst(TrimStart(s));
    }
  }

  lemma {:induction false} TrimStartAll(s: string)
    ensures TrimStart(s) == "" <==> AllSpace(s)
    ensures TrimStart(s) != "" ==> !IsSpace(TrimStart(s)[0])
    decreases |s|
  {
    if s != [] && IsSpace(s[0]) {
      TrimStartAll(s[1..]);
      assert AllSpace(s) <==> AllSpace(s[1..]) by {
        assert forall i :: 0 <= i < |s[1..]| ==> s[1..][i] == s[i + 1];
      }
    }
  }

  lemma {:induction false} TrimEndKeepsFirst(s: string)
    requires s != "" && !IsSpace(s[0])
    ensures TrimEnd(s) != "" && TrimEnd(s)[0] == s[0]
    decreases |s|
  {
    if IsSpace(s[|s| - 1]) {
      TrimEndKeepsFirst(s[..|s| - 1]);
    }
  }

  // ---------------------------------------------------------------------------
  // POST validation (lines 56-71).

  /** A JavaScript number after `Number(…)`: finite, or NaN / ±Infinity. */
  datatype JsNumber = Finite(value: real) | NonFinite

  /** The fields of the JSON body; `None` is a field that is missing or null. */
  datatype AssetBody = AssetBody(
    name: Option<string>, laboratory: Option<string>, quantity: Option<JsNumber>, unit: Option<string>)

  /** The row the route would insert. */
  datatype NewAsset = NewAsset(name: string, laboratory: string, quantity: real, unit: string)

  datatype AssetError = NameRequired | LaboratoryRequired | QuantityNotPositive

  function ErrorMessage(e: AssetError): string {
    match e
    case NameRequired => "Nome é obrigatório"
    case LaboratoryRequired => "Laboratório é obrigatório"
    case QuantityNotPositive => "Quantidade deve ser maior que zero"
  }

  /** Line 56: a body that does not parse is read as `{}`; `None` is such a body. */
  function FieldsOf(body: Option<AssetBody>): AssetBody {
    body.GetOr(AssetBody(None, None, None, None))
  }

  /** Line 60: `Number(body?.quantity ?? 0)`. */
  function QuantityOf(b: AssetBody): JsNumber {
    b.quantity.GetOr(Finite(0.0))
  }

  predicate PositiveQuantity(q: JsNumber) {
    q.Finite? && q.value > 0.0
  }

  /** Lines 58-71: the three checks in order, and the row that is inserted when all pass. */
  function ValidateAsset(body: Option<AssetBody>): (r: Result<NewAsset, AssetError>)
    ensures var b := FieldsOf(body);
      && (r.Success? ==> QuantityOf(b).Finite? && r.value == NewAsset(Trim(b.name.GetOr("")), Trim(b.laboratory.GetOr("")),
                                             QuantityOf(b).value, NormalizeUnit(Some(b.unit.GetOr("")))))
      && (r == Failure(NameRequired) <==> Trim(b.name.GetOr("")) == "")
      && (r == Failure(LaboratoryRequired) <==> Trim(b.name.GetOr("")) != "" && Trim(b.laboratory.GetOr("")) == "")
      && (r == Failure(QuantityNotPositive) <==>
            Trim(b.name.GetOr("")) != "" && Trim(b.laboratory.GetOr("")) != "" && !PositiveQuantity(QuantityOf(b)))
  {
    var b := FieldsOf(body);
    var name := Trim(b.name.GetOr(""));
    var laboratory := Trim(b.laboratory.GetOr(""));
    var quantity := QuantityOf(b);
    var unit := NormalizeUnit(Some(b.unit.GetOr("")));
    if name == "" then Failure(NameRequired)
    else if laboratory == "" then Failure(LaboratoryRequired)
    else if !PositiveQuantity(quantity) then Failure(QuantityNotPositive)
    else Success(NewAsset(name, laboratory, quantity.value, unit))
  }

  /**
   * What reaches the insert: a name and a laboratory that are not blank and
   * carry no surrounding whitespace, a positive finite quantity and one of
   * the three units. A body that does not parse, or has only blank names,
   * never does.
   */
  lemma {:induction false} ValidatedRow(body: Option<AssetBody>)
    requires ValidateAsset(body).Success?
    ensures var row := ValidateAsset(body).value;
      && IsTrimmed(FieldsOf(body).name.GetOr(""), row.name)
      && IsTrimmed(FieldsOf(body).laboratory.GetOr(""), row.laboratory)
      && FieldsOf(body).quantity.GetOr(Finite(0.0)) == Finite(row.quantity)
      && row.name != "" && !IsSpace(row.name[0]) && !IsSpace(row.name[|row.name| - 1])
      && row.laboratory != "" && !IsSpace(row.laboratory[0]) && !IsSpace(row.laboratory[|row.laboratory| - 1])
      && row.quantity > 0.0
      && row.unit in {"ml", "mg", "un"}
      && row.unit == NormalizeUnit(FieldsOf(body).unit.OrElse(Some("")))
  {
    var b := FieldsOf(body);
    var row := ValidateAsset(body).value;
    TrimEdges(b.name.GetOr(""));
    TrimEdges(b.laboratory.GetOr(""));
    TrimSlice(b.name.GetOr(""));
    TrimSlice(b.laboratory.GetOr(""));
    assert row.name == Trim(b.name.GetOr("")) && row.laboratory == Trim(b.laboratory.GetOr(""));
    assert Some(b.unit.GetOr("")) == b.unit.OrElse(Some(""));
  }

  /** A trimmed string that is not empty starts and ends with a character other than whitespace. */
  lemma {:induction false} TrimEdges(s: string)
    ensures Trim(s) != "" ==> !IsSpace(Trim(s)[0]) && !IsSpace(Trim(s)[|Trim(s)| - 1])
  {
    TrimStartAll(s);
    if TrimStart(s) != "" {
      TrimEndKeepsFirst(TrimStart(s));
      TrimEndLast(TrimStart(s));
    } else {
      assert Trim(s) == "";
    }
  }

  lemma {:induction false} TrimEndLast(s: string)
    ensures TrimEnd(s) != "" ==> !IsSpace(TrimEnd(s)[|TrimEnd(s)| - 1])
    decreases |s|
  {
    if s != [] && IsSpace(s[|s| - 1]) {
      TrimEndLast(s[..|s| - 1]);
    }
  }

  /** What POST answers before the insert: a 400 with its message, or the row to insert. */
  datatype AssetReply = Rejected(message: string) | Insert(row: NewAsset)

  /** Lines 56-75 up to the insert: the first failed check answers 400 with its message. */
  function PostAsset(body: Option<AssetBody>): (reply: AssetReply)
    ensures reply.Rejected? <==> ValidateAsset(body).Failure?
    ensures reply.Rejected? ==>
      reply.message in {"Nome é obrigatório", "Laboratório é obrigatório", "Quantidade deve ser maior que zero"}
    ensures reply.Insert? ==> reply.row == ValidateAsset(body).value
  {
    match ValidateAsset(body)
    case Failure(e) => Rejected(ErrorMessage(e))
    case Success(row) => Insert(row)
  }

  /** The three messages differ, so a 400 tells which check failed. */
  lemma {:induction false} MessageNamesCheck(body: Option<AssetBody>)
    requires ValidateAsset(body).Failure?
    ensures PostAsset(body) == Rejected("Nome é obrigatório") <==> ValidateAsset(body) == Failure(NameRequired)
    ensures PostAsset(body) == Rejected("Laboratório é obrigatório") <==> ValidateAsset(body) == Failure(LaboratoryRequired)
    ensures PostAsset(body) == Rejected("Quantidade deve ser maior que zero") <==> ValidateAsset(body) == Failure(QuantityNotPositive)
  {
    assert "Nome é obrigatório" != "Laboratório é obrigatório" by {
      assert "Nome é obrigatório"[0] != "Laboratório é obrigatório"[0];
    }
    assert "Nome é obrigatório" != "Quantidade deve ser maior que zero" by {
      assert "Nome é obrigatório"[0] != "Quantidade deve ser maior que zero"[0];
    }
    assert "Laboratório é obrigatório" != "Quantidade deve ser maior que zero" by {
      assert "Laboratório é obrigatório"[0] != "Quantidade deve ser maior que zero"[0];
    }
  }

  /** `t` is `s` with a whitespace-only run cut from each end. */
  ghost predicate IsTrimmed(s: string, t: string) {
    exists i, j :: 0 <= i <= j <= |s| && t == s[i..j] && AllSpace(s[..i]) && AllSpace(s[j..])
  }

  /** The number of whitespace characters `s` starts with. */
  function LeadingSpaces(s: string): (n: nat)
    ensures n <= |s|
    decreases |s|
  {
    if s != [] && IsSpace(s[0]) then 1 + LeadingSpaces(s[1..]) else 0
  }

  /** The number of whitespace characters `s` ends with. */
  function TrailingSpaces(s: string): (n: nat)
    ensures n <= |s|
    decreases |s|
  {
    if s != [] && IsSpace(s[|s| - 1]) then 1 + TrailingSpaces(s[..|s| - 1]) else 0
  }

  /** `trimStart()` drops exactly the leading whitespace. */
  lemma {:induction false} TrimStartCut(s: string)
    ensures TrimStart(s) == s[LeadingSpaces(s)..] && AllSpace(s[..LeadingSpaces(s)])
    decreases |s|
  {
    if s != [] && IsSpace(s[0]) {
      var n := LeadingSpaces(s[1..]);
      TrimStartCut(s[1..]);
      assert s[1..][n..] == s[1 + n..];
      forall k | 0 <= k < 1 + n
        ensures IsSpace(s[k])
      {
        if k > 0 {
          assert s[k] == s[1..][..n][k - 1];
        }
      }
      assert forall k :: 0 <= k < 1 + n ==> s[..1 + n][k] == s[k];
    } else {
      assert s[0..] == s;
    }
  }

  /** `trimEnd()` drops exactly the trailing whitespace. */
  lemma {:induction false} TrimEndCut(s: string)
    ensures var j := |s| - TrailingSpaces(s); TrimEnd(s) == s[..j] && AllSpace(s[j..])
    decreases |s|
  {
    if s != [] && IsSpace(s[|s| - 1]) {
      var p := s[..|s| - 1];
      var j := |p| - TrailingSpaces(p);
      TrimEndCut(p);
      assert p[..j] == s[..j];
      forall k | j <= k < |s|
        ensures IsSpace(s[k])
      {
        if k < |p| {
          assert s[k] == p[j..][k - j];
        }
      }
      assert forall k :: 0 <= k < |s[j..]| ==> s[j..][k] == s[j + k];
    } else {
      assert s[..|s|] == s;
    }
  }

  /** `trim()` returns the slice of `s` left once the whitespace at both ends is cut. */
  lemma {:induction false} TrimSlice(s: string)
    ensures IsTrimmed(s, Trim(s))
  {
    var i := LeadingSpaces(s);
    var m := s[i..];
    TrimStartCut(s);
    TrimEndCut(m);
    var j := i + (|m| - TrailingSpaces(m));
    assert Trim(s) == m[..j - i] == s[i..j];
    assert AllSpace(s[j..]) by {
      assert s[j..] == m[j - i..];
    }
    assert 0 <= i <= j <= |s| && Trim(s) == s[i..j] && AllSpace(s[..i]) && AllSpace(s[j..]);
  }

  /** A body that does not parse is refused for its name, before anything else is looked at. */
  lemma {:induction false} UnparsedBody()
    ensures ValidateAsset(None) == Failure(NameRequired)
  {
    assert Trim("") == "";
  }
}
