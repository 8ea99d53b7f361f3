/**
 The conjugation engine: a table-driven transducer from a verb (dictionary
 kana, class, manual per-template overrides) and a template to a hiragana
 string. Resolution order: a manual override; then the progressive te-iru
 family built from the te-form; then dispatch on the verb class.
 */
module Conjugation {
  import opened Common

  /** The templates the engine knows a rule for; any other id is `Unlisted`. */
  datatype Template =
    | PlainDictionary | PlainNegative | PlainPast | PlainPastNegative | PlainTeForm
    | PoliteDictionary | PoliteNegative | PolitePast | PolitePastNegative | PoliteTeForm
    | PlainPassive | PlainCausative | PlainCausativePassive
    | PlainBaConditional | PlainTaraConditional | PlainTariSequence
    | PlainImperative | PlainProhibitive | PlainTeOku | PlainTeShimau
    | PlainNagara | PlainYasui | PlainNikui | PoliteNasai
    | PlainNakerebaIkenai | PlainNakuteMoIi
    | PlainTeIru | PoliteTeImasu | PoliteTeImasen | PoliteTeImashita | PoliteTeImasenDeshita
    | Unlisted(id: string)

  /** `verb_class`; a class name the engine has no rules for is `OtherClass`. */
  datatype VerbClass = Godan | Ichidan | Irregular | OtherClass(name: string)

  /** A verb record. `overrides` holds `new_conjugations`, keyed by template. */
  datatype Verb = Verb(id: string, kana: string, verbClass: VerbClass, overrides: map<Template, string>)

  /** `special_cases`: te-form and plain-past literals keyed by dictionary kana. */
  datatype Exceptions = Exceptions(teForm: map<string, string>, plainPast: map<string, string>)

  datatype ConjError =
    | UnsupportedTemplate(template: Template)
    | UnsupportedEnding(ending: string)
    | MissingIrregularEntry(kana: string)
    | UnsupportedClass(name: string)

  type Conjugated = Result<string, ConjError>

  // ---------------------------------------------------------------------
  // Kana helpers

  /** `kana.slice(0, -1)`: everything but the final kana ("" stays ""). */
  function Stem(kana: string): (r: string)
    ensures |kana| > 0 ==> kana == r + [kana[|kana| - 1]]
    ensures |kana| == 0 ==> r == ""
  {
    if |kana| == 0 then "" else kana[..|kana| - 1]
  }

  /** `kana.slice(-1)`: the final kana, or "" for an empty string. */
  function Last(kana: string): (r: string)
    ensures |r| <= 1
    ensures kana == Stem(kana) + r
  {
    if |kana| == 0 then "" else [kana[|kana| - 1]]
  }

  // ---------------------------------------------------------------------
  // Godan row tables

  datatype Row = ARow | IRow | ERow

  /** The nine godan endings, in the order the row tables list them. */
  const GodanEndings: seq<char> := ['う', 'く', 'ぐ', 'す', 'つ', 'ぬ', 'ぶ', 'む', 'る']

  function RowKana(row: Row): (r: seq<char>)
    ensures |r| == |GodanEndings|
  {
    match row
    case ARow => ['わ', 'か', 'が', 'さ', 'た', 'な', 'ば', 'ま', 'ら']
    case IRow => ['い', 'き', 'ぎ', 'し', 'ち', 'に', 'び', 'み', 'り']
    case ERow => ['え', 'け', 'げ', 'せ', 'て', 'ね', 'べ', 'め', 'れ']
  }

  /** No two endings share a kana in a row table, and the nine endings are distinct. */
  lemma RowsAreInjective(row: Row, i: nat, j: nat)
    requires i < |GodanEndings| && j < |GodanEndings| && i != j
    ensures RowKana(row)[i] != RowKana(row)[j]
    ensures GodanEndings[i] != GodanEndings[j]
  {
  }

  /** The inverse row lookup: which godan ending a row kana came from. */
  function Unshift(row: Row, c: char): Option<char>
  {
    if c in RowKana(row) then Some(GodanEndings[IndexOf(RowKana(row), c)]) else None
  }

  /** The row table lookup `A_ROW[last]` etc.; `None` where the table has no entry. */
  function Shift(row: Row, last: string): (r: Option<char>)
    ensures r.Some? <==> |last| == 1 && last[0] in GodanEndings
    ensures r.Some? ==> r.value in RowKana(row) && Unshift(row, r.value) == Some(last[0])
  {
    if |last| == 1 && last[0] in GodanEndings then
      var i := IndexOf(GodanEndings, last[0]);
      var c := RowKana(row)[i];
      var k := IndexOf(RowKana(row), c);
      if k != i then RowsAreInjective(row, k, i); Some(c) else Some(c)
    else None
  }

  /**
   `base + ROW[last] + suffix` with the missing-entry case made an error, the
   way `godanPast`/`godanTe` treat an unknown ending.
   */
  function RowForm(kana: string, row: Row, suffix: string): (r: Conjugated)
    ensures r.Ok? <==> |kana| > 0 && kana[|kana| - 1] in GodanEndings
    ensures r.Err? ==> r.error == UnsupportedEnding(Last(kana))
    ensures r.Ok? ==> && |r.value| == |kana| + |suffix|
                      && r.value == Stem(kana) + [r.value[|kana| - 1]] + suffix
                      && Unshift(row, r.value[|kana| - 1]) == Some(kana[|kana| - 1])
  {
    match Shift(row, Last(kana))
    case None => Err(UnsupportedEnding(Last(kana)))
    case Some(c) => Ok(Stem(kana) + [c] + suffix)
  }

  /**
   The row shift exactly as the source writes it: a JavaScript object lookup
   that misses yields `undefined`, which string concatenation spells out.
   The model uses `RowForm`; this is kept to state the difference.
   */
  function RowFormAsWritten(kana: string, row: Row, suffix: string): (r: string)
    ensures Shift(row, Last(kana)).Some? ==> RowForm(kana, row, suffix) == Ok(r)
    ensures Shift(row, Last(kana)).None? ==> r == Stem(kana) + "undefined" + suffix
  {
    match Shift(row, Last(kana))
    case Some(c) => Stem(kana) + [c] + suffix
    case None => Stem(kana) + "undefined" + suffix
  }

  /** Sound-change groups of `godanPast`/`godanTe`: the part replacing the ending. */
  function SoundChange(last: string, past: bool): Option<string>
  {
    if last == "う" || last == "つ" || last == "る" then Some(if past then "った" else "って")
    else if last == "ぶ" || last == "む" || last == "ぬ" then Some(if past then "んだ" else "んで")
    else if last == "く" then Some(if past then "いた" else "いて")
    else if last == "ぐ" then Some(if past then "いだ" else "いで")
    else if last == "す" then Some(if past then "した" else "して")
    else None
  }

  /** `godanPast(base, last)` (past) or `godanTe(base, last)` (te-form). */
  function GodanSoundChange(kana: string, past: bool): (r: Conjugated)
    ensures r.Err? <==> SoundChange(Last(kana), past).None?
  {
    match SoundChange(Last(kana), past)
    case None => Err(UnsupportedEnding(Last(kana)))
    case Some(tail) => Ok(Stem(kana) + tail)
  }

  /**
   `applySpecialCase`: a non-empty literal in the exception table for this
   kana replaces the generated form; otherwise the generated form stands.
   */
  function SpecialCase(table: map<string, string>, kana: string, generated: string): (r: string)
    ensures kana in table && table[kana] != "" ==> r == table[kana]
    ensures !(kana in table && table[kana] != "") ==> r == generated
  {
    if kana in table && table[kana] != "" then table[kana] else generated
  }

  /** The exception-adjusted godan te-form or past form. */
  function GodanBase(kana: string, ex: Exceptions, past: bool): Conjugated
  {
    match GodanSoundChange(kana, past)
    case Err(e) => Err(e)
    case Ok(g) => Ok(SpecialCase(if past then ex.plainPast else ex.teForm, kana, g))
  }

  /** How a godan template is formed. */
  datatype GodanRule =
    | KeepDictionary
    | Shifted(row: Row, suffix: string)
    | FromPast(suffix: string)
    | FromTe(suffix: string)
    | AppendToDictionary(suffix: string)
    | FromNegative(replacement: string)

  function GodanRuleFor(t: Template): Option<GodanRule>
  {
    match t
    case PlainDictionary => Some(KeepDictionary)
    case PlainNegative => Some(Shifted(ARow, "ない"))
    case PlainPast => Some(FromPast(""))
    case PlainPastNegative => Some(FromNegative("なかった"))
    case PlainTeForm => Some(FromTe(""))
    case PoliteDictionary => Some(Shifted(IRow, "ます"))
    case PoliteNegative => Some(Shifted(IRow, "ません"))
    case PolitePast => Some(Shifted(IRow, "ました"))
    case PolitePastNegative => Some(Shifted(IRow, "ませんでした"))
    case PoliteTeForm => Some(FromTe("ください"))
    case PlainPassive => Some(Shifted(ARow, "れる"))
    case PlainCausative => Some(Shifted(ARow, "せる"))
    case PlainCausativePassive => Some(Shifted(ARow, "せられる"))
    case PlainBaConditional => Some(Shifted(ERow, "ば"))
    case PlainTaraConditional => Some(FromPast("ら"))
    case PlainTariSequence => Some(FromPast("りする"))
    case PlainImperative => Some(Shifted(ERow, ""))
    case PlainProhibitive => Some(AppendToDictionary("な"))
    case PlainTeOku => Some(FromTe("おく"))
    case PlainTeShimau => Some(FromTe("しまう"))
    case PlainNagara => Some(Shifted(IRow, "ながら"))
    case PlainYasui => Some(Shifted(IRow, "やすい"))
    case PlainNikui => Some(Shifted(IRow, "にくい"))
    case PoliteNasai => Some(Shifted(IRow, "なさい"))
    case PlainNakerebaIkenai => Some(FromNegative("なければいけない"))
    case PlainNakuteMoIi => Some(FromNegative("なくてもいい"))
    case _ => None
  }

  /** `conjugateGodan` */
  function ConjugateGodan(kana: string, t: Template, ex: Exceptions): Conjugated
  {
    match GodanRuleFor(t)
    case None => Err(UnsupportedTemplate(t))
    case Some(rule) =>
      match rule
      case KeepDictionary => Ok(kana)
      case AppendToDictionary(suffix) => Ok(kana + suffix)
      case Shifted(row, suffix) => RowForm(kana, row, suffix)
      case FromNegative(replacement) =>
        (match RowForm(kana, ARow, "ない")
         case Err(e) => Err(e)
         case Ok(negative) => Ok(ReplaceSuffix(negative, "ない", replacement)))
      case FromPast(suffix) =>
        (match GodanBase(kana, ex, true)
         case Err(e) => Err(e)
         case Ok(past) => Ok(past + suffix))
      case FromTe(suffix) =>
        (match GodanBase(kana, ex, false)
         case Err(e) => Err(e)
         case Ok(te) => Ok(te + suffix))
  }

  // ---------------------------------------------------------------------
  // Ichidan

  /** The fixed suffix an ichidan template appends to the stem. */
  function IchidanSuffix(t: Template): Option<string>
  {
    match t
    case PlainNegative => Some("ない")
    case PlainPast => Some("た")
    case PlainPastNegative => Some("なかった")
    case PlainTeForm => Some("て")
    case PoliteDictionary => Some("ます")
    case PoliteNegative => Some("ません")
    case PolitePast => Some("ました")
    case PolitePastNegative => Some("ませんでした")
    case PoliteTeForm => Some("てください")
    case PlainPassive => Some("られる")
    case PlainCausative => Some("させる")
    case PlainCausativePassive => Some("させられる")
    case PlainBaConditional => Some("れば")
    case PlainTaraConditional => Some("たら")
    case PlainTariSequence => Some("たりする")
    case PlainImperative => Some("ろ")
    case PlainTeOku => Some("ておく")
    case PlainTeShimau => Some("てしまう")
    case PlainNagara => Some("ながら")
    case PlainYasui => Some("やすい")
    case PlainNikui => Some("にくい")
    case PoliteNasai => Some("なさい")
    case PlainNakerebaIkenai => Some("なければいけない")
    case PlainNakuteMoIi => Some("なくてもいい")
    case _ => None
  }

  /** `conjugateIchidan`: the exception-free ichidan rule table. */
  function IchidanPlain(kana: string, t: Template): Conjugated
  {
    if t == PlainDictionary then Ok(kana)
    else if t == PlainProhibitive then Ok(kana + "な")
    else match IchidanSuffix(t)
      case None => Err(UnsupportedTemplate(t))
      case Some(suffix) => Ok(Stem(kana) + suffix)
  }

  /** The ichidan branch of `conjugate`: only te-form, past and polite te-form consult the exceptions. */
  function ConjugateIchidan(kana: string, t: Template, ex: Exceptions): Conjugated
  {
    match IchidanPlain(kana, t)
    case Err(e) => Err(e)
    case Ok(plain) =>
      if t == PlainTeForm then Ok(SpecialCase(ex.teForm, kana, plain))
      else if t == PlainPast then Ok(SpecialCase(ex.plainPast, kana, plain))
      else if t == PoliteTeForm then Ok(SpecialCase(ex.teForm, kana, Stem(kana) + "て") + "ください")
      else Ok(plain)
  }

  // ---------------------------------------------------------------------
  // Irregular

  datatype IrregularVerb = Suru | Kuru | Aru

  /** Which static table applies; `None` for any other kana. */
  function IrregularOf(kana: string): Option<IrregularVerb>
  {
    if kana == "する" then Some(Suru)
    else if kana == "くる" then Some(Kuru)
    else if kana == "ある" then Some(Aru)
    else None
  }

  /** `IRREGULAR_TABLE` */
  function IrregularTable(v: IrregularVerb, t: Template): Option<string>
  {
    match (v, t)
    case (Suru, PlainDictionary) => Some("する")
    case (Suru, PlainNegative) => Some("しない")
    case (Suru, PlainPast) => Some("した")
    case (Suru, PlainPastNegative) => Some("しなかった")
    case (Suru, PlainTeForm) => Some("して")
    case (Suru, PoliteDictionary) => Some("します")
    case (Suru, PoliteNegative) => Some("しません")
    case (Suru, PolitePast) => Some("しました")
    case (Suru, PolitePastNegative) => Some("しませんでした")
    case (Suru, PoliteTeForm) => Some("してください")
    case (Kuru, PlainDictionary) => Some("くる")
    case (Kuru, PlainNegative) => Some("こない")
    case (Kuru, PlainPast) => Some("きた")
    case (Kuru, PlainPastNegative) => Some("こなかった")
    case (Kuru, PlainTeForm) => Some("きて")
    case (Kuru, PoliteDictionary) => Some("きます")
    case (Kuru, PoliteNegative) => Some("きません")
    case (Kuru, PolitePast) => Some("きました")
    case (Kuru, PolitePastNegative) => Some("きませんでした")
    case (Kuru, PoliteTeForm) => Some("きてください")
    case (Aru, PlainDictionary) => Some("ある")
    case (Aru, PlainNegative) => Some("ない")
    case (Aru, PlainPast) => Some("あった")
    case (Aru, PlainPastNegative) => Some("なかった")
    case (Aru, PlainTeForm) => Some("あって")
    case (Aru, PoliteDictionary) => Some("あります")
    case (Aru, PoliteNegative) => Some("ありません")
    case (Aru, PolitePast) => Some("ありました")
    case (Aru, PolitePastNegative) => Some("ありませんでした")
    case (Aru, PoliteTeForm) => Some("あってください")
    case _ => None
  }

  /** The per-verb literal forms of the irregular switch. */
  function IrregularLiteral(v: IrregularVerb, t: Template): Option<string>
  {
    match (v, t)
    case (Suru, PlainPassive) => Some("される")
    case (Kuru, PlainPassive) => Some("こられる")
    case (Aru, PlainPassive) => Some("あられる")
    case (Suru, PlainCausative) => Some("させる")
    case (Kuru, PlainCausative) => Some("こさせる")
    case (Aru, PlainCausative) => Some("あらせる")
    case (Suru, PlainCausativePassive) => Some("させられる")
    case (Kuru, PlainCausativePassive) => Some("こさせられる")
    case (Aru, PlainCausativePassive) => Some("あらせられる")
    case (Suru, PlainBaConditional) => Some("すれば")
    case (Kuru, PlainBaConditional) => Some("くれば")
    case (Aru, PlainBaConditional) => Some("あれば")
    case (Suru, PlainImperative) => Some("しろ")
    case (Kuru, PlainImperative) => Some("こい")
    case (Aru, PlainImperative) => Some("あれ")
    case _ => None
  }

  /** `stemMap`: the continuative stem used by -nagara, -yasui, -nikui, -nasai. */
  function IrregularStem(v: IrregularVerb): string
  {
    match v
    case Suru => "し"
    case Kuru => "き"
    case Aru => "あり"
  }

  /** A manual override counts only when it is a non-empty string. */
  function Manual(verb: Verb, t: Template): Option<string>
  {
    if t in verb.overrides && verb.overrides[t] != "" then Some(verb.overrides[t]) else None
  }

  /**
   `conjugate(verb, t)` for a template that sits in the irregular table: the
   manual override if any, else the table entry.
   */
  function IrregularCore(verb: Verb, v: IrregularVerb, t: Template): string
    requires IrregularTable(v, t).Some?
  {
    match Manual(verb, t)
    case Some(m) => m
    case None => IrregularTable(v, t).value
  }

  /**
   The irregular forms outside the static table: per-verb literals, else a
   derivation from the (override-aware) negative, past, te-form or stem. The
   source computes those four eagerly; none of them can fail once the table
   exists, so computing them on demand is the same function.
   */
  function IrregularDerived(verb: Verb, v: IrregularVerb, t: Template): Conjugated
  {
    if IrregularLiteral(v, t).Some? then Ok(IrregularLiteral(v, t).value)
    else match t
      case PlainTaraConditional => Ok(IrregularCore(verb, v, PlainPast) + "ら")
      case PlainTariSequence => Ok(IrregularCore(verb, v, PlainPast) + "りする")
      case PlainProhibitive => Ok(verb.kana + "な")
      case PlainTeOku => Ok(IrregularCore(verb, v, PlainTeForm) + "おく")
      case PlainTeShimau => Ok(IrregularCore(verb, v, PlainTeForm) + "しまう")
      case PlainNagara => Ok(IrregularStem(v) + "ながら")
      case PlainYasui => Ok(IrregularStem(v) + "やすい")
      case PlainNikui => Ok(IrregularStem(v) + "にくい")
      case PoliteNasai => Ok(IrregularStem(v) + "なさい")
      case PlainNakerebaIkenai => Ok(ReplaceSuffix(IrregularCore(verb, v, PlainNegative), "ない", "なければいけない"))
      case PlainNakuteMoIi => Ok(ReplaceSuffix(IrregularCore(verb, v, PlainNegative), "ない", "なくてもいい"))
      case _ => Err(UnsupportedTemplate(t))
  }

  /** The irregular branch of `conjugate`, reached when no manual override applies. */
  function ConjugateIrregular(verb: Verb, t: Template): Conjugated
  {
    match IrregularOf(verb.kana)
    case None => Err(MissingIrregularEntry(verb.kana))
    case Some(v) =>
      if IrregularTable(v, t).Some? then Ok(IrregularTable(v, t).value)
      else IrregularDerived(verb, v, t)
  }

  // ---------------------------------------------------------------------
  // Dispatch

  /** `teIruSuffixes`: the progressive family and the suffix each adds to the te-form. */
  function ProgressiveSuffix(t: Template): Option<string>
  {
    match t
    case PlainTeIru => Some("いる")
    case PoliteTeImasu => Some("います")
    case PoliteTeImasen => Some("いません")
    case PoliteTeImashita => Some("いました")
    case PoliteTeImasenDeshita => Some("いませんでした")
    case _ => None
  }

  /** Class dispatch, reached when neither a manual override nor the progressive rule applies. */
  function ByClass(verb: Verb, t: Template, ex: Exceptions): Conjugated
  {
    match verb.verbClass
    case Irregular => ConjugateIrregular(verb, t)
    case Ichidan => ConjugateIchidan(verb.kana, t, ex)
    case Godan => ConjugateGodan(verb.kana, t, ex)
    case OtherClass(name) => Err(UnsupportedClass(name))
  }

  /** `conjugate(verb, templateId, exceptions)` */
  function Conjugate(verb: Verb, t: Template, ex: Exceptions): (r: Conjugated)
    decreases if ProgressiveSuffix(t).Some? then 1 else 0
  {
    if Manual(verb, t).Some? then Ok(Manual(verb, t).value)
    else if ProgressiveSuffix(t).Some? then
      match Conjugate(verb, PlainTeForm, ex)
      case Err(e) => Err(e)
      case Ok(te) => Ok(te + ProgressiveSuffix(t).value)
    else ByClass(verb, t, ex)
  }

  /**
   `uniqueValues`: the non-empty strings of `values`, first occurrence kept.
   */
  function UniqueValues(values: seq<string>): (r: seq<string>)
    ensures NoDuplicates(r)
    ensures forall s :: s in r <==> s in values && s != ""
  {
    Dedup(Filter(values, (s: string) => s != ""))
  }

  /** The three obligation-form spellings accepted for a given negative stem. */
  function ObligationVariants(stem: string): seq<string>
  {
    [stem + "なければいけない", stem + "なきゃいけない", stem + "なくちゃいけない"]
  }

  /**
   `conjugateAccepted`: the canonical form, widened for the obligation
   template by the casual spellings built from the plain negative's stem.
   */
  function ConjugateAccepted(verb: Verb, t: Template, ex: Exceptions): (r: Result<seq<string>, ConjError>)
    ensures Conjugate(verb, t, ex).Err? ==> r == Err(Conjugate(verb, t, ex).error)
    ensures r.Ok? ==> Conjugate(verb, t, ex).Ok?
    ensures r.Ok? && t != PlainNakerebaIkenai ==> r.value == [Conjugate(verb, t, ex).value]
    ensures r.Ok? && t == PlainNakerebaIkenai ==>
      var canonical := Conjugate(verb, t, ex).value;
      && NoDuplicates(r.value)
      && (canonical != "" ==> |r.value| > 0 && r.value[0] == canonical)
      && (Conjugate(verb, PlainNegative, ex).Ok? && EndsWith(Conjugate(verb, PlainNegative, ex).value, "ない") ==>
            var negative := Conjugate(verb, PlainNegative, ex).value;
            && (forall s :: s in r.value ==> s == canonical || s in ObligationVariants(negative[..|negative| - 2]))
            && (forall s :: s in ObligationVariants(negative[..|negative| - 2]) ==> s in r.value)
            && (canonical != "" ==> canonical in r.value))
      && (Conjugate(verb, PlainNegative, ex).Ok? && !EndsWith(Conjugate(verb, PlainNegative, ex).value, "ない") ==>
            r.value == [canonical])
  {
    AcceptedFrom(t, Conjugate(verb, t, ex), Conjugate(verb, PlainNegative, ex))
  }

  /** `conjugateAccepted` once the template's form and the plain negative are known. */
  function AcceptedFrom(t: Template, form: Result<string, ConjError>, negativeForm: Result<string, ConjError>): (r: Result<seq<string>, ConjError>)
    ensures form.Err? ==> r == Err(form.error)
    ensures r.Ok? ==> form.Ok?
    ensures r.Ok? && t != PlainNakerebaIkenai ==> r.value == [form.value]
    ensures r.Ok? && t == PlainNakerebaIkenai ==> negativeForm.Ok? && r.value == ObligationAccepted(form.value, negativeForm.value)
    ensures form.Ok? && t == PlainNakerebaIkenai && negativeForm.Err? ==> r == Err(negativeForm.error)
  {
    match form
    case Err(e) => Err(e)
    case Ok(canonical) =>
      if t != PlainNakerebaIkenai then Ok([canonical])
      else
        match negativeForm
        case Err(e) => Err(e)
        case Ok(negative) => Ok(ObligationAccepted(canonical, negative))
  }

  /** The accepted answers for the obligation template, from its canonical form and the plain negative. */
  function ObligationAccepted(canonical: string, negative: string): (r: seq<string>)
    ensures NoDuplicates(r)
    ensures canonical != "" ==> |r| > 0 && r[0] == canonical
    ensures EndsWith(negative, "ない") ==>
      && (forall s :: s in r ==> s == canonical || s in ObligationVariants(negative[..|negative| - 2]))
      && (forall s :: s in ObligationVariants(negative[..|negative| - 2]) ==> s in r)
      && (canonical != "" ==> canonical in r)
    ensures !EndsWith(negative, "ない") ==> r == [canonical]
  {
    if !EndsWith(negative, "ない") then [canonical]
    else
      var values := [canonical] + ObligationVariants(negative[..|negative| - 2]);
      var r := UniqueValues(values);
      assert canonical != "" ==> r[0] == canonical by {
        if canonical != "" {
          UniqueValuesKeepsHead(values);
        }
      }
      r
  }

  lemma UniqueValuesKeepsHead(values: seq<string>)
    requires |values| > 0 && values[0] != ""
    ensures |UniqueValues(values)| > 0 && UniqueValues(values)[0] == values[0]
  {
    DedupKeepsHead(Filter(values, (s: string) => s != ""));
  }
}
