/**
 Laws of the conjugation engine: the derivations that hold across verb
 classes (progressive from te-form, te- and past-derived forms, negative-
 derived forms, the continuative stem), the godan row shifts and their
 inverse, and the error cases.
 */
module ConjugationLaws {
  import opened Common
  import opened Conjugation

  /** `r` with `suffix` appended to its value; errors pass through. */
  function Append(r: Conjugated, suffix: string): Conjugated
  {
    match r
    case Err(e) => Err(e)
    case Ok(s) => Ok(s + suffix)
  }

  /** `r` with a trailing `suffix` of its value replaced; errors pass through. */
  function Replace(r: Conjugated, suffix: string, replacement: string): Conjugated
  {
    match r
    case Err(e) => Err(e)
    case Ok(s) => Ok(ReplaceSuffix(s, suffix, replacement))
  }

  predicate HasTeException(ex: Exceptions, kana: string)
  {
    kana in ex.teForm && ex.teForm[kana] != ""
  }

  predicate HasPastException(ex: Exceptions, kana: string)
  {
    kana in ex.plainPast && ex.plainPast[kana] != ""
  }

  // ---------------------------------------------------------------------
  // Resolution order

  /** A non-empty manual override is returned verbatim, whatever the class or template. */
  lemma ManualOverrideWins(verb: Verb, t: Template, ex: Exceptions)
    requires t in verb.overrides && verb.overrides[t] != ""
    ensures Conjugate(verb, t, ex) == Ok(verb.overrides[t])
  {
  }

  /** The progressive family is the te-form plus a fixed suffix, for every class. */
  lemma ProgressiveLaw(verb: Verb, t: Template, ex: Exceptions)
    requires t in {PlainTeIru, PoliteTeImasu, PoliteTeImasen, PoliteTeImashita, PoliteTeImasenDeshita}
    requires Manual(verb, t).None?
    ensures t == PlainTeIru ==> Conjugate(verb, t, ex) == Append(Conjugate(verb, PlainTeForm, ex), "いる")
    ensures t == PoliteTeImasu ==> Conjugate(verb, t, ex) == Append(Conjugate(verb, PlainTeForm, ex), "います")
    ensures t == PoliteTeImasen ==> Conjugate(verb, t, ex) == Append(Conjugate(verb, PlainTeForm, ex), "いません")
    ensures t == PoliteTeImashita ==> Conjugate(verb, t, ex) == Append(Conjugate(verb, PlainTeForm, ex), "いました")
    ensures t == PoliteTeImasenDeshita ==>
      Conjugate(verb, t, ex) == Append(Conjugate(verb, PlainTeForm, ex), "いませんでした")
  {
  }

  // ---------------------------------------------------------------------
  // Derivations shared by the three classes

  /** Without a manual override, a non-progressive template goes straight to class dispatch. */
  lemma Unfold(verb: Verb, t: Template, ex: Exceptions)
    requires Manual(verb, t).None? && ProgressiveSuffix(t).None?
    ensures Conjugate(verb, t, ex) == ByClass(verb, t, ex)
  {
  }

  // ---------------------------------------------------------------------
  // Building blocks: one rule kind or one table at a time

  lemma AppendEmpty(r: Conjugated)
    ensures Append(r, "") == r
  {
    if r.Ok? {
      assert r.value + "" == r.value;
    }
  }

  /** Replacing the trailing `suffix` of `stem + suffix`. */
  lemma SwapSuffix(stem: string, suffix: string, replacement: string)
    ensures ReplaceSuffix(stem + suffix, suffix, replacement) == stem + replacement
  {
    assert (stem + suffix)[|stem|..] == suffix;
    assert (stem + suffix)[..|stem|] == stem;
  }

  lemma GodanShifted(kana: string, t: Template, ex: Exceptions, row: Row, suffix: string)
    requires GodanRuleFor(t) == Some(Shifted(row, suffix))
    ensures ConjugateGodan(kana, t, ex) == RowForm(kana, row, suffix)
  {
  }

  lemma GodanFromNegative(kana: string, t: Template, ex: Exceptions, replacement: string)
    requires GodanRuleFor(t) == Some(FromNegative(replacement))
    ensures ConjugateGodan(kana, t, ex) == Replace(RowForm(kana, ARow, "ない"), "ない", replacement)
  {
    match RowForm(kana, ARow, "ない")
    case Err(e) =>
    case Ok(negative) =>
      assert ConjugateGodan(kana, t, ex) == Ok(ReplaceSuffix(negative, "ない", replacement));
  }

  lemma GodanFromPast(kana: string, t: Template, ex: Exceptions, suffix: string)
    requires GodanRuleFor(t) == Some(FromPast(suffix))
    ensures ConjugateGodan(kana, t, ex) == Append(GodanBase(kana, ex, true), suffix)
  {
  }

  lemma GodanFromTe(kana: string, t: Template, ex: Exceptions, suffix: string)
    requires GodanRuleFor(t) == Some(FromTe(suffix))
    ensures ConjugateGodan(kana, t, ex) == Append(GodanBase(kana, ex, false), suffix)
  {
  }

  /** The godan plain past and te-form are the exception-adjusted sound-change forms. */
  lemma GodanBaseForms(kana: string, ex: Exceptions)
    ensures ConjugateGodan(kana, PlainPast, ex) == GodanBase(kana, ex, true)
    ensures ConjugateGodan(kana, PlainTeForm, ex) == GodanBase(kana, ex, false)
  {
    GodanFromPast(kana, PlainPast, ex, "");
    GodanFromTe(kana, PlainTeForm, ex, "");
    AppendEmpty(GodanBase(kana, ex, true));
    AppendEmpty(GodanBase(kana, ex, false));
  }

  /** An ichidan template outside the exception-aware three is the stem plus its fixed suffix. */
  lemma IchidanSuffixForm(kana: string, t: Template, ex: Exceptions)
    requires IchidanSuffix(t).Some? && t != PlainTeForm && t != PlainPast && t != PoliteTeForm
    ensures ConjugateIchidan(kana, t, ex) == Ok(Stem(kana) + IchidanSuffix(t).value)
  {
    assert t != PlainDictionary && t != PlainProhibitive;
  }

  lemma IchidanBaseForms(kana: string, ex: Exceptions)
    ensures ConjugateIchidan(kana, PlainTeForm, ex) == Ok(SpecialCase(ex.teForm, kana, Stem(kana) + "て"))
    ensures ConjugateIchidan(kana, PlainPast, ex) == Ok(SpecialCase(ex.plainPast, kana, Stem(kana) + "た"))
    ensures ConjugateIchidan(kana, PoliteTeForm, ex) == Ok(SpecialCase(ex.teForm, kana, Stem(kana) + "て") + "ください")
  {
    assert IchidanSuffix(PlainTeForm) == Some("て");
    assert IchidanSuffix(PlainPast) == Some("た");
    assert IchidanSuffix(PoliteTeForm).Some?;
  }

  /** The irregular templates that are derived rather than listed. */
  predicate IsIrregularDerived(t: Template)
  {
    t == PlainTaraConditional || t == PlainTariSequence || t == PlainProhibitive
    || t == PlainTeOku || t == PlainTeShimau || t == PlainNagara || t == PlainYasui
    || t == PlainNikui || t == PoliteNasai || t == PlainNakerebaIkenai || t == PlainNakuteMoIi
  }

  lemma IrregularDerivedOnly(v: IrregularVerb, t: Template)
    requires IsIrregularDerived(t)
    ensures IrregularTable(v, t).None? && IrregularLiteral(v, t).None?
  {
  }

  /** Without an override, a listed irregular form is its table entry. */
  lemma IrregularListed(verb: Verb, v: IrregularVerb, t: Template)
    requires IrregularOf(verb.kana) == Some(v) && IrregularTable(v, t).Some?
    ensures ConjugateIrregular(verb, t) == Ok(IrregularTable(v, t).value)
  {
  }

  /** Without an override, a derived irregular form comes from `IrregularDerived`. */
  lemma IrregularUnlisted(verb: Verb, v: IrregularVerb, t: Template)
    requires IrregularOf(verb.kana) == Some(v) && IsIrregularDerived(t)
    ensures ConjugateIrregular(verb, t) == IrregularDerived(verb, v, t)
  {
    IrregularDerivedOnly(v, t);
  }

  /**
   The exception table decides alone when it has a literal for the verb,
   whatever form was generated; otherwise the generated form passes through.
   Applying it twice is applying it once.
   */
  lemma SpecialCaseLaw(table: map<string, string>, kana: string, g1: string, g2: string)
    ensures kana in table && table[kana] != "" ==> SpecialCase(table, kana, g1) == SpecialCase(table, kana, g2)
    ensures !(kana in table && table[kana] != "") ==> SpecialCase(table, kana, g1) == g1
    ensures SpecialCase(table, kana, SpecialCase(table, kana, g1)) == SpecialCase(table, kana, g1)
  {
  }

  // ---------------------------------------------------------------------
  // Te-derived forms

  function TeDerivedSuffix(t: Template): string
  {
    match t
    case PoliteTeForm => "ください"
    case PlainTeOku => "おく"
    case _ => "しまう"
  }

  lemma TeDerivedGodan(kana: string, t: Template, ex: Exceptions)
    requires t == PoliteTeForm || t == PlainTeOku || t == PlainTeShimau
    ensures ConjugateGodan(kana, t, ex) == Append(ConjugateGodan(kana, PlainTeForm, ex), TeDerivedSuffix(t))
  {
    assert GodanRuleFor(t) == Some(FromTe(TeDerivedSuffix(t)));
    GodanFromTe(kana, t, ex, TeDerivedSuffix(t));
    GodanBaseForms(kana, ex);
  }

  lemma IchidanTeDerivedSuffix(t: Template)
    requires t == PlainTeOku || t == PlainTeShimau
    ensures IchidanSuffix(t) == Some("て" + TeDerivedSuffix(t))
  {
    assert "て" + "おく" == "ておく" && "て" + "しまう" == "てしまう";
  }

  lemma TeDerivedIchidan(kana: string, t: Template, ex: Exceptions)
    requires t == PoliteTeForm || t == PlainTeOku || t == PlainTeShimau
    requires t != PoliteTeForm ==> !HasTeException(ex, kana)
    ensures ConjugateIchidan(kana, t, ex) == Append(ConjugateIchidan(kana, PlainTeForm, ex), TeDerivedSuffix(t))
  {
    IchidanBaseForms(kana, ex);
    var stem := Stem(kana);
    if t != PoliteTeForm {
      IchidanTeDerivedSuffix(t);
      IchidanSuffixForm(kana, t, ex);
      assert stem + ("て" + TeDerivedSuffix(t)) == stem + "て" + TeDerivedSuffix(t);
    }
  }

  lemma IrregularPoliteTe(v: IrregularVerb)
    ensures IrregularTable(v, PoliteTeForm).Some? && IrregularTable(v, PlainTeForm).Some?
    ensures IrregularTable(v, PoliteTeForm).value == IrregularTable(v, PlainTeForm).value + "ください"
  {
    match v {
      case Suru => assert "して" + "ください" == "してください";
      case Kuru => assert "きて" + "ください" == "きてください";
      case Aru => assert "あって" + "ください" == "あってください";
    }
  }

  lemma TeDerivedIrregular(verb: Verb, t: Template)
    requires t == PoliteTeForm || t == PlainTeOku || t == PlainTeShimau
    requires Manual(verb, PlainTeForm).None?
    ensures ConjugateIrregular(verb, t) == Append(ConjugateIrregular(verb, PlainTeForm), TeDerivedSuffix(t))
  {
    match IrregularOf(verb.kana) {
      case None =>
      case Some(v) =>
        IrregularPoliteTe(v);
        IrregularListed(verb, v, PlainTeForm);
        if t == PoliteTeForm {
          IrregularListed(verb, v, t);
        } else {
          IrregularUnlisted(verb, v, t);
        }
    }
  }

  /**
   Polite te-form, te-oku and te-shimau extend the te-form, including its
   exception-table override. The ichidan te-oku/te-shimau rule bypasses the
   exception table, so there the law needs the verb to have no te exception.
   */
  lemma TeDerivedForms(verb: Verb, t: Template, ex: Exceptions)
    requires t == PoliteTeForm || t == PlainTeOku || t == PlainTeShimau
    requires Manual(verb, t).None? && Manual(verb, PlainTeForm).None?
    requires verb.verbClass == Ichidan && t != PoliteTeForm ==> !HasTeException(ex, verb.kana)
    ensures Conjugate(verb, t, ex) == Append(Conjugate(verb, PlainTeForm, ex), TeDerivedSuffix(t))
  {
    Unfold(verb, t, ex);
    Unfold(verb, PlainTeForm, ex);
    match verb.verbClass {
      case Godan => TeDerivedGodan(verb.kana, t, ex);
      case Ichidan => TeDerivedIchidan(verb.kana, t, ex);
      case Irregular => TeDerivedIrregular(verb, t);
      case OtherClass(_) =>
    }
  }

  // ---------------------------------------------------------------------
  // Past-derived forms

  function PastDerivedSuffix(t: Template): string
  {
    if t == PlainTaraConditional then "ら" else "りする"
  }

  lemma PastDerivedGodan(kana: string, t: Template, ex: Exceptions)
    requires t == PlainTaraConditional || t == PlainTariSequence
    ensures ConjugateGodan(kana, t, ex) == Append(ConjugateGodan(kana, PlainPast, ex), PastDerivedSuffix(t))
  {
    assert GodanRuleFor(t) == Some(FromPast(PastDerivedSuffix(t)));
    GodanFromPast(kana, t, ex, PastDerivedSuffix(t));
    GodanBaseForms(kana, ex);
  }

  lemma IchidanPastDerivedSuffix(t: Template)
    requires t == PlainTaraConditional || t == PlainTariSequence
    ensures IchidanSuffix(t) == Some("た" + PastDerivedSuffix(t))
  {
    assert "た" + "ら" == "たら" && "た" + "りする" == "たりする";
  }

  lemma PastDerivedIchidan(kana: string, t: Template, ex: Exceptions)
    requires t == PlainTaraConditional || t == PlainTariSequence
    requires !HasPastException(ex, kana)
    ensures ConjugateIchidan(kana, t, ex) == Append(ConjugateIchidan(kana, PlainPast, ex), PastDerivedSuffix(t))
  {
    IchidanBaseForms(kana, ex);
    IchidanPastDerivedSuffix(t);
    IchidanSuffixForm(kana, t, ex);
    var stem := Stem(kana);
    assert stem + ("た" + PastDerivedSuffix(t)) == stem + "た" + PastDerivedSuffix(t);
  }

  lemma PastDerivedIrregular(verb: Verb, t: Template)
    requires t == PlainTaraConditional || t == PlainTariSequence
    requires Manual(verb, PlainPast).None?
    ensures ConjugateIrregular(verb, t) == Append(ConjugateIrregular(verb, PlainPast), PastDerivedSuffix(t))
  {
    match IrregularOf(verb.kana) {
      case None =>
      case Some(v) =>
        assert IrregularTable(v, PlainPast).Some?;
        IrregularListed(verb, v, PlainPast);
        IrregularUnlisted(verb, v, t);
    }
  }

  /**
   Tara and tari extend the past form (with its exception override); the
   ichidan rule bypasses the past exception, so there the verb must have none.
   */
  lemma PastDerivedForms(verb: Verb, t: Template, ex: Exceptions)
    requires t == PlainTaraConditional || t == PlainTariSequence
    requires Manual(verb, t).None? && Manual(verb, PlainPast).None?
    requires verb.verbClass == Ichidan ==> !HasPastException(ex, verb.kana)
    ensures Conjugate(verb, t, ex) == Append(Conjugate(verb, PlainPast, ex), PastDerivedSuffix(t))
  {
    Unfold(verb, t, ex);
    Unfold(verb, PlainPast, ex);
    match verb.verbClass {
      case Godan => PastDerivedGodan(verb.kana, t, ex);
      case Ichidan => PastDerivedIchidan(verb.kana, t, ex);
      case Irregular => PastDerivedIrregular(verb, t);
      case OtherClass(_) =>
    }
  }

  /**
   The te-derived forms in the cases `TeDerivedForms` leaves out. The godan
   rule rebuilds the te-form from the kana, so a manual te-form is not used;
   the ichidan ておく/てしまう rule appends to the stem and bypasses the te
   exception; an irregular verb reuses its own (manual or table) te-form,
   except for the polite te-form, which is a table entry of its own.
   */
  lemma TeDerivedBypass(verb: Verb, t: Template, ex: Exceptions)
    requires t == PoliteTeForm || t == PlainTeOku || t == PlainTeShimau
    requires Manual(verb, t).None?
    ensures verb.verbClass == Godan ==>
      Conjugate(verb, t, ex) == Append(GodanBase(verb.kana, ex, false), TeDerivedSuffix(t))
    ensures verb.verbClass == Ichidan && t != PoliteTeForm ==>
      Conjugate(verb, t, ex) == Ok(Stem(verb.kana) + "て" + TeDerivedSuffix(t))
    ensures verb.verbClass == Ichidan && t == PoliteTeForm ==>
      Conjugate(verb, t, ex) == Ok(SpecialCase(ex.teForm, verb.kana, Stem(verb.kana) + "て") + "ください")
    ensures verb.verbClass == Irregular && IrregularOf(verb.kana).Some? && t != PoliteTeForm ==>
      Conjugate(verb, t, ex) == Append(Conjugate(verb, PlainTeForm, ex), TeDerivedSuffix(t))
    ensures verb.verbClass == Irregular && IrregularOf(verb.kana).Some? && t == PoliteTeForm ==>
      Conjugate(verb, t, ex) == Ok(IrregularTable(IrregularOf(verb.kana).value, PlainTeForm).value + "ください")
  {
    match verb.verbClass {
      case Godan => TeBypassGodan(verb, t, ex);
      case Ichidan => TeBypassIchidan(verb, t, ex);
      case Irregular =>
        if IrregularOf(verb.kana).Some? {
          TeBypassIrregular(verb, t, ex);
        }
      case OtherClass(_) =>
    }
  }

  lemma TeBypassGodan(verb: Verb, t: Template, ex: Exceptions)
    requires t == PoliteTeForm || t == PlainTeOku || t == PlainTeShimau
    requires Manual(verb, t).None? && verb.verbClass == Godan
    ensures Conjugate(verb, t, ex) == Append(GodanBase(verb.kana, ex, false), TeDerivedSuffix(t))
  {
    Unfold(verb, t, ex);
    assert GodanRuleFor(t) == Some(FromTe(TeDerivedSuffix(t)));
    GodanFromTe(verb.kana, t, ex, TeDerivedSuffix(t));
  }

  lemma TeBypassIchidan(verb: Verb, t: Template, ex: Exceptions)
    requires t == PoliteTeForm || t == PlainTeOku || t == PlainTeShimau
    requires Manual(verb, t).None? && verb.verbClass == Ichidan
    ensures t != PoliteTeForm ==> Conjugate(verb, t, ex) == Ok(Stem(verb.kana) + "て" + TeDerivedSuffix(t))
    ensures t == PoliteTeForm ==>
      Conjugate(verb, t, ex) == Ok(SpecialCase(ex.teForm, verb.kana, Stem(verb.kana) + "て") + "ください")
  {
    Unfold(verb, t, ex);
    assert ByClass(verb, t, ex) == ConjugateIchidan(verb.kana, t, ex);
    if t != PoliteTeForm {
      IchidanTeDerivedSuffix(t);
      IchidanSuffixForm(verb.kana, t, ex);
      assert Stem(verb.kana) + ("て" + TeDerivedSuffix(t)) == Stem(verb.kana) + "て" + TeDerivedSuffix(t);
    } else {
      IchidanBaseForms(verb.kana, ex);
    }
  }

  lemma TeBypassIrregular(verb: Verb, t: Template, ex: Exceptions)
    requires t == PoliteTeForm || t == PlainTeOku || t == PlainTeShimau
    requires Manual(verb, t).None? && verb.verbClass == Irregular && IrregularOf(verb.kana).Some?
    ensures t != PoliteTeForm ==> Conjugate(verb, t, ex) == Append(Conjugate(verb, PlainTeForm, ex), TeDerivedSuffix(t))
    ensures t == PoliteTeForm ==>
      Conjugate(verb, t, ex) == Ok(IrregularTable(IrregularOf(verb.kana).value, PlainTeForm).value + "ください")
  {
    Unfold(verb, t, ex);
    var v := IrregularOf(verb.kana).value;
    IrregularPoliteTe(v);
    if t == PoliteTeForm {
      IrregularListed(verb, v, t);
    } else {
      IrregularUnlisted(verb, v, t);
      if Manual(verb, PlainTeForm).None? {
        Unfold(verb, PlainTeForm, ex);
        IrregularListed(verb, v, PlainTeForm);
      }
    }
  }

  /**
   The past-derived forms in the cases `PastDerivedForms` leaves out: the
   godan rule rebuilds the past form, ignoring a manual one; the ichidan
   たら/たりする rule bypasses the past exception; an irregular verb reuses
   its own (manual or table) past form.
   */
  lemma PastDerivedBypass(verb: Verb, t: Template, ex: Exceptions)
    requires t == PlainTaraConditional || t == PlainTariSequence
    requires Manual(verb, t).None?
    ensures verb.verbClass == Godan ==>
      Conjugate(verb, t, ex) == Append(GodanBase(verb.kana, ex, true), PastDerivedSuffix(t))
    ensures verb.verbClass == Ichidan ==> Conjugate(verb, t, ex) == Ok(Stem(verb.kana) + "た" + PastDerivedSuffix(t))
    ensures verb.verbClass == Irregular && IrregularOf(verb.kana).Some? ==>
      Conjugate(verb, t, ex) == Append(Conjugate(verb, PlainPast, ex), PastDerivedSuffix(t))
  {
    Unfold(verb, t, ex);
    match verb.verbClass {
      case Godan =>
        assert GodanRuleFor(t) == Some(FromPast(PastDerivedSuffix(t)));
        GodanFromPast(verb.kana, t, ex, PastDerivedSuffix(t));
      case Ichidan =>
        IchidanPastDerivedSuffix(t);
        IchidanSuffixForm(verb.kana, t, ex);
        assert Stem(verb.kana) + ("た" + PastDerivedSuffix(t)) == Stem(verb.kana) + "た" + PastDerivedSuffix(t);
      case Irregular =>
        if IrregularOf(verb.kana).Some? {
          var v := IrregularOf(verb.kana).value;
          assert IrregularTable(v, PlainPast).Some?;
          IrregularUnlisted(verb, v, t);
          if Manual(verb, PlainPast).None? {
            Unfold(verb, PlainPast, ex);
            IrregularListed(verb, v, PlainPast);
          }
        }
      case OtherClass(_) =>
    }
  }

  // ---------------------------------------------------------------------
  // Negative-derived forms

  function NegativeReplacement(t: Template): string
  {
    match t
    case PlainPastNegative => "なかった"
    case PlainNakerebaIkenai => "なければいけない"
    case _ => "なくてもいい"
  }

  lemma NegativeDerivedIchidan(kana: string, t: Template, ex: Exceptions)
    requires t == PlainPastNegative || t == PlainNakerebaIkenai || t == PlainNakuteMoIi
    ensures ConjugateIchidan(kana, t, ex) == Replace(ConjugateIchidan(kana, PlainNegative, ex), "ない", NegativeReplacement(t))
  {
    var stem := Stem(kana);
    assert IchidanSuffix(PlainNegative) == Some("ない");
    IchidanSuffixForm(kana, PlainNegative, ex);
    assert IchidanSuffix(t) == Some(NegativeReplacement(t));
    IchidanSuffixForm(kana, t, ex);
    SwapSuffix(stem, "ない", NegativeReplacement(t));
  }

  lemma NegativeGodanRule(t: Template)
    requires t == PlainPastNegative || t == PlainNakerebaIkenai || t == PlainNakuteMoIi
    ensures GodanRuleFor(t) == Some(FromNegative(NegativeReplacement(t)))
  {
  }

  lemma NegativeDerivedGodan(kana: string, t: Template, ex: Exceptions)
    requires t == PlainPastNegative || t == PlainNakerebaIkenai || t == PlainNakuteMoIi
    ensures ConjugateGodan(kana, t, ex) == Replace(ConjugateGodan(kana, PlainNegative, ex), "ない", NegativeReplacement(t))
  {
    NegativeGodanRule(t);
    GodanFromNegative(kana, t, ex, NegativeReplacement(t));
    GodanShifted(kana, PlainNegative, ex, ARow, "ない");
  }

  lemma IrregularNegatives(v: IrregularVerb)
    ensures IrregularTable(v, PlainNegative).Some? && IrregularTable(v, PlainPastNegative).Some?
    ensures EndsWith(IrregularTable(v, PlainNegative).value, "ない")
    ensures IrregularTable(v, PlainPastNegative).value
      == ReplaceSuffix(IrregularTable(v, PlainNegative).value, "ない", "なかった")
  {
    match v {
      case Suru => SwapSuffix("し", "ない", "なかった");
        assert "し" + "ない" == "しない" && "し" + "なかった" == "しなかった";
      case Kuru => SwapSuffix("こ", "ない", "なかった");
        assert "こ" + "ない" == "こない" && "こ" + "なかった" == "こなかった";
      case Aru => SwapSuffix("", "ない", "なかった");
        assert "" + "ない" == "ない" && "" + "なかった" == "なかった";
    }
  }

  lemma NegativeDerivedIrregular(verb: Verb, t: Template)
    requires t == PlainPastNegative || t == PlainNakerebaIkenai || t == PlainNakuteMoIi
    requires Manual(verb, PlainNegative).None?
    ensures ConjugateIrregular(verb, t) == Replace(ConjugateIrregular(verb, PlainNegative), "ない", NegativeReplacement(t))
  {
    match IrregularOf(verb.kana) {
      case None =>
      case Some(v) =>
        IrregularNegatives(v);
        IrregularListed(verb, v, PlainNegative);
        if t == PlainPastNegative {
          IrregularListed(verb, v, t);
        } else {
          IrregularUnlisted(verb, v, t);
        }
    }
  }

  /** Past negative and the two obligation/permission forms replace the negative's trailing ない. */
  lemma NegativeDerivedForms(verb: Verb, t: Template, ex: Exceptions)
    requires t == PlainPastNegative || t == PlainNakerebaIkenai || t == PlainNakuteMoIi
    requires Manual(verb, t).None? && Manual(verb, PlainNegative).None?
    ensures Conjugate(verb, t, ex) == Replace(Conjugate(verb, PlainNegative, ex), "ない", NegativeReplacement(t))
  {
    Unfold(verb, t, ex);
    Unfold(verb, PlainNegative, ex);
    match verb.verbClass {
      case Ichidan => NegativeDerivedIchidan(verb.kana, t, ex);
      case Godan => NegativeDerivedGodan(verb.kana, t, ex);
      case Irregular => NegativeDerivedIrregular(verb, t);
      case OtherClass(_) =>
    }
  }

  // ---------------------------------------------------------------------
  // The continuative (masu) stem

  function ContinuativeSuffix(t: Template): string
  {
    match t
    case PoliteNegative => "ません"
    case PolitePast => "ました"
    case PolitePastNegative => "ませんでした"
    case PlainNagara => "ながら"
    case PlainYasui => "やすい"
    case PlainNikui => "にくい"
    case _ => "なさい"
  }

  predicate IsContinuativeTemplate(t: Template)
  {
    t == PoliteNegative || t == PolitePast || t == PolitePastNegative
    || t == PlainNagara || t == PlainYasui || t == PlainNikui || t == PoliteNasai
  }

  lemma ContinuativeIchidan(kana: string, t: Template, ex: Exceptions)
    requires IsContinuativeTemplate(t)
    ensures ConjugateIchidan(kana, t, ex) == Replace(ConjugateIchidan(kana, PoliteDictionary, ex), "ます", ContinuativeSuffix(t))
  {
    assert IchidanSuffix(PoliteDictionary) == Some("ます");
    IchidanSuffixForm(kana, PoliteDictionary, ex);
    assert IchidanSuffix(t) == Some(ContinuativeSuffix(t));
    IchidanSuffixForm(kana, t, ex);
    SwapSuffix(Stem(kana), "ます", ContinuativeSuffix(t));
  }

  /** Replacing the suffix of a row-shifted form gives the row-shifted form with the other suffix. */
  lemma RowFormSwap(kana: string, row: Row, suffix: string, replacement: string)
    ensures Replace(RowForm(kana, row, suffix), suffix, replacement) == RowForm(kana, row, replacement)
  {
    match Shift(row, Last(kana)) {
      case None =>
      case Some(c) =>
        SwapSuffix(Stem(kana) + [c], suffix, replacement);
    }
  }

  /** Two templates shifting to the same row differ only in the suffix after the shifted kana. */
  lemma ShiftedSwap(kana: string, t: Template, u: Template, ex: Exceptions, row: Row, s1: string, s2: string)
    requires GodanRuleFor(t) == Some(Shifted(row, s1)) && GodanRuleFor(u) == Some(Shifted(row, s2))
    ensures ConjugateGodan(kana, u, ex) == Replace(ConjugateGodan(kana, t, ex), s1, s2)
  {
    GodanShifted(kana, t, ex, row, s1);
    GodanShifted(kana, u, ex, row, s2);
    RowFormSwap(kana, row, s1, s2);
  }

  lemma ContinuativeGodanRule(t: Template)
    requires IsContinuativeTemplate(t)
    ensures GodanRuleFor(t) == Some(Shifted(IRow, ContinuativeSuffix(t)))
  {
  }

  lemma ContinuativeGodan(kana: string, t: Template, ex: Exceptions)
    requires IsContinuativeTemplate(t)
    ensures ConjugateGodan(kana, t, ex) == Replace(ConjugateGodan(kana, PoliteDictionary, ex), "ます", ContinuativeSuffix(t))
  {
    ContinuativeGodanRule(t);
    ShiftedSwap(kana, PoliteDictionary, t, ex, IRow, "ます", ContinuativeSuffix(t));
  }

  lemma IrregularPolite(v: IrregularVerb, t: Template)
    requires t == PoliteNegative || t == PolitePast || t == PolitePastNegative
    ensures IrregularTable(v, PoliteDictionary) == Some(IrregularStem(v) + "ます")
    ensures IrregularTable(v, t) == Some(IrregularStem(v) + ContinuativeSuffix(t))
  {
    match v {
      case Suru =>
        assert "し" + "ます" == "します" && "し" + "ません" == "しません";
        assert "し" + "ました" == "しました" && "し" + "ませんでした" == "しませんでした";
      case Kuru =>
        assert "き" + "ます" == "きます" && "き" + "ません" == "きません";
        assert "き" + "ました" == "きました" && "き" + "ませんでした" == "きませんでした";
      case Aru =>
        assert "あり" + "ます" == "あります" && "あり" + "ません" == "ありません";
        assert "あり" + "ました" == "ありました" && "あり" + "ませんでした" == "ありませんでした";
    }
  }

  lemma ContinuativeIrregular(verb: Verb, t: Template)
    requires IsContinuativeTemplate(t)
    ensures ConjugateIrregular(verb, t) == Replace(ConjugateIrregular(verb, PoliteDictionary), "ます", ContinuativeSuffix(t))
  {
    match IrregularOf(verb.kana) {
      case None =>
      case Some(v) =>
        IrregularPolite(v, PolitePast);
        IrregularListed(verb, v, PoliteDictionary);
        SwapSuffix(IrregularStem(v), "ます", ContinuativeSuffix(t));
        IrregularContinuative(verb, v, t);
    }
  }

  /** Every continuative irregular form is the masu stem with the template's suffix. */
  lemma IrregularContinuative(verb: Verb, v: IrregularVerb, t: Template)
    requires IsContinuativeTemplate(t) && IrregularOf(verb.kana) == Some(v)
    ensures ConjugateIrregular(verb, t) == Ok(IrregularStem(v) + ContinuativeSuffix(t))
  {
    if t == PoliteNegative || t == PolitePast || t == PolitePastNegative {
      IrregularPolite(v, t);
      IrregularListed(verb, v, t);
    } else {
      IrregularUnlisted(verb, v, t);
      assert IrregularDerived(verb, v, t) == Ok(IrregularStem(v) + ContinuativeSuffix(t));
    }
  }

  /**
   The continuative (masu) stem law: the other polite forms and -nagara,
   -yasui, -nikui, -nasai are the polite dictionary form with its ます
   replaced, for godan, ichidan and irregular verbs alike.
   */
  lemma ContinuativeStemLaw(verb: Verb, t: Template, ex: Exceptions)
    requires IsContinuativeTemplate(t)
    requires Manual(verb, t).None? && Manual(verb, PoliteDictionary).None?
    ensures Conjugate(verb, t, ex) == Replace(Conjugate(verb, PoliteDictionary, ex), "ます", ContinuativeSuffix(t))
  {
    Unfold(verb, t, ex);
    Unfold(verb, PoliteDictionary, ex);
    match verb.verbClass {
      case Ichidan => ContinuativeIchidan(verb.kana, t, ex);
      case Godan => ContinuativeGodan(verb.kana, t, ex);
      case Irregular => ContinuativeIrregular(verb, t);
      case OtherClass(_) =>
    }
  }

  // ---------------------------------------------------------------------
  // Past and te-form

  /** The te-form is the past form with its final た/だ turned into て/で. */
  function TeFromPast(past: string): Option<string>
  {
    if EndsWith(past, "た") then Some(past[..|past| - 1] + "て")
    else if EndsWith(past, "だ") then Some(past[..|past| - 1] + "で")
    else None
  }

  lemma TeFromPastOf(base: string, past: string, te: string)
    requires (past == "た" && te == "て") || (past == "だ" && te == "で")
    ensures TeFromPast(base + past) == Some(base + te)
  {
    assert (base + past)[..|base + past| - 1] == base;
  }

  lemma SoundChangePastTe(base: string, last: string)
    ensures SoundChange(last, true).Some? <==> SoundChange(last, false).Some?
    ensures SoundChange(last, true).Some? ==>
      TeFromPast(base + SoundChange(last, true).value) == Some(base + SoundChange(last, false).value)
  {
    if last == "う" || last == "つ" || last == "る" {
      TeFromPastOf(base + "っ", "た", "て");
      assert base + "った" == base + "っ" + "た" && base + "って" == base + "っ" + "て";
    } else if last == "ぶ" || last == "む" || last == "ぬ" {
      TeFromPastOf(base + "ん", "だ", "で");
      assert base + "んだ" == base + "ん" + "だ" && base + "んで" == base + "ん" + "で";
    } else if last == "く" {
      TeFromPastOf(base + "い", "た", "て");
      assert base + "いた" == base + "い" + "た" && base + "いて" == base + "い" + "て";
    } else if last == "ぐ" {
      TeFromPastOf(base + "い", "だ", "で");
      assert base + "いだ" == base + "い" + "だ" && base + "いで" == base + "い" + "で";
    } else if last == "す" {
      TeFromPastOf(base + "し", "た", "て");
      assert base + "した" == base + "し" + "た" && base + "して" == base + "し" + "て";
    }
  }

  lemma IrregularPastTe(v: IrregularVerb)
    ensures IrregularTable(v, PlainPast).Some? && IrregularTable(v, PlainTeForm).Some?
    ensures TeFromPast(IrregularTable(v, PlainPast).value) == Some(IrregularTable(v, PlainTeForm).value)
  {
    match v {
      case Suru =>
        TeFromPastOf("し", "た", "て");
        assert "し" + "た" == "した" && "し" + "て" == "して";
      case Kuru =>
        TeFromPastOf("き", "た", "て");
        assert "き" + "た" == "きた" && "き" + "て" == "きて";
      case Aru =>
        TeFromPastOf("あっ", "た", "て");
        assert "あっ" + "た" == "あった" && "あっ" + "て" == "あって";
    }
  }

  /**
   Without overrides or exceptions, past and te-form succeed together and
   the te-form is the past form with た/だ turned into て/で.
   */
  lemma PastTeCorrespondence(verb: Verb, ex: Exceptions)
    requires Manual(verb, PlainPast).None? && Manual(verb, PlainTeForm).None?
    requires !HasPastException(ex, verb.kana) && !HasTeException(ex, verb.kana)
    ensures Conjugate(verb, PlainPast, ex).Ok? <==> Conjugate(verb, PlainTeForm, ex).Ok?
    ensures Conjugate(verb, PlainPast, ex).Ok? ==>
      TeFromPast(Conjugate(verb, PlainPast, ex).value) == Some(Conjugate(verb, PlainTeForm, ex).value)
  {
    Unfold(verb, PlainPast, ex);
    Unfold(verb, PlainTeForm, ex);
    match verb.verbClass {
      case Godan =>
        GodanBaseForms(verb.kana, ex);
        SoundChangePastTe(Stem(verb.kana), Last(verb.kana));
      case Ichidan =>
        IchidanBaseForms(verb.kana, ex);
        TeFromPastOf(Stem(verb.kana), "た", "て");
      case Irregular =>
        match IrregularOf(verb.kana) {
          case None =>
          case Some(v) =>
            IrregularPastTe(v);
            IrregularListed(verb, v, PlainPast);
            IrregularListed(verb, v, PlainTeForm);
        }
      case OtherClass(_) =>
    }
  }

  // ---------------------------------------------------------------------
  // Godan rows and their inverse

  /**
   Recovers the dictionary form from a godan form built as
   `base + ROW[last] + suffix`.
   */
  function RecoverDictionary(row: Row, suffix: string, form: string): Option<string>
  {
    if |form| > |suffix| && EndsWith(form, suffix) then
      var c := form[|form| - |suffix| - 1];
      match Unshift(row, c)
      case None => None
      case Some(e) => Some(form[..|form| - |suffix| - 1] + [e])
    else None
  }

  /** Templates formed by a row shift. */
  predicate IsShiftedTemplate(t: Template)
  {
    GodanRuleFor(t).Some? && GodanRuleFor(t).value.Shifted?
  }

  /**
   A row-shifted godan form succeeds exactly when the verb ends in one of the
   nine godan endings, and then it is the stem, the row's kana for that
   ending, and the template's suffix; the dictionary form can be read back.
   */
  lemma GodanRowLaw(verb: Verb, t: Template, ex: Exceptions)
    requires verb.verbClass == Godan && IsShiftedTemplate(t) && Manual(verb, t).None?
    ensures var rule := GodanRuleFor(t).value;
      && (Conjugate(verb, t, ex).Ok? <==> |Last(verb.kana)| == 1 && Last(verb.kana)[0] in GodanEndings)
      && (Conjugate(verb, t, ex).Ok? ==>
            && Conjugate(verb, t, ex).value
                 == Stem(verb.kana) + [RowKana(rule.row)[IndexOf(GodanEndings, Last(verb.kana)[0])]] + rule.suffix
            && RecoverDictionary(rule.row, rule.suffix, Conjugate(verb, t, ex).value) == Some(verb.kana))
  {
    var rule := GodanRuleFor(t).value;
    GodanRowForm(verb, t, ex);
    RowFormRecover(verb.kana, rule.row, rule.suffix);
  }

  lemma GodanRowForm(verb: Verb, t: Template, ex: Exceptions)
    requires verb.verbClass == Godan && IsShiftedTemplate(t) && Manual(verb, t).None?
    ensures Conjugate(verb, t, ex) == RowForm(verb.kana, GodanRuleFor(t).value.row, GodanRuleFor(t).value.suffix)
  {
    Unfold(verb, t, ex);
    GodanShifted(verb.kana, t, ex, GodanRuleFor(t).value.row, GodanRuleFor(t).value.suffix);
  }

  /** The pieces of `stem + [c] + suffix` can be read back from its end. */
  lemma SplitAround(stem: string, c: char, suffix: string)
    ensures var form := stem + [c] + suffix;
      && |form| > |suffix| && EndsWith(form, suffix)
      && form[|form| - |suffix| - 1] == c
      && form[..|form| - |suffix| - 1] == stem
  {
    var form := stem + [c] + suffix;
    assert form[|stem| + 1..] == suffix;
    assert form[..|stem|] == stem;
  }

  lemma RowFormRecover(kana: string, row: Row, suffix: string)
    ensures RowForm(kana, row, suffix).Ok? ==> RecoverDictionary(row, suffix, RowForm(kana, row, suffix).value) == Some(kana)
  {
    var last := Last(kana);
    if Shift(row, last).Some? {
      var c := Shift(row, last).value;
      SplitAround(Stem(kana), c, suffix);
      assert Stem(kana) + [last[0]] == kana;
    }
  }

  /**
   A godan verb whose kana ends outside the nine endings: the source's
   negative is the stem followed by the text "undefined" and ない, where the
   model reports the unsupported ending (as the past and te-form already do).
   */
  lemma UndefinedRowCounterexample()
    ensures RowFormAsWritten("かえ", ARow, "ない") == "かundefinedない"
    ensures RowForm("かえ", ARow, "ない") == Err(UnsupportedEnding("え"))
  {
    assert Last("かえ") == "え";
    assert 'え' !in GodanEndings;
    assert Stem("かえ") == "か";
  }

  /** Wherever the source's lookup hits, the two agree; where it misses, only the model reports it. */
  lemma RowFormAsWrittenLaw(kana: string, row: Row, suffix: string)
    ensures RowForm(kana, row, suffix).Ok? <==> |Last(kana)| == 1 && Last(kana)[0] in GodanEndings
    ensures RowForm(kana, row, suffix).Ok? ==> RowForm(kana, row, suffix).value == RowFormAsWritten(kana, row, suffix)
    ensures RowForm(kana, row, suffix).Err? ==>
      RowFormAsWritten(kana, row, suffix) == Stem(kana) + "undefined" + suffix
  {
  }

  /** Past and te-form of a godan verb fail exactly on an ending outside the nine. */
  lemma GodanSoundChangeDomain(verb: Verb, t: Template, ex: Exceptions)
    requires verb.verbClass == Godan && Manual(verb, t).None?
    requires t == PlainPast || t == PlainTeForm
    ensures Conjugate(verb, t, ex).Err? <==> !(|Last(verb.kana)| == 1 && Last(verb.kana)[0] in GodanEndings)
    ensures Conjugate(verb, t, ex).Err? ==> Conjugate(verb, t, ex).error == UnsupportedEnding(Last(verb.kana))
  {
    var last := Last(verb.kana);
    if |last| == 1 && last[0] in GodanEndings {
      var e := last[0];
      assert e == 'う' || e == 'く' || e == 'ぐ' || e == 'す' || e == 'つ' || e == 'ぬ' || e == 'ぶ' || e == 'む' || e == 'る';
      assert last == [e];
    }
  }

  /** The exception table's te-form literal replaces the sound change and flows into te-derived forms. */
  lemma GodanTeException(verb: Verb, t: Template, ex: Exceptions)
    requires verb.verbClass == Godan && HasTeException(ex, verb.kana)
    requires t == PlainTeForm || t == PoliteTeForm || t == PlainTeOku || t == PlainTeShimau
    requires Manual(verb, t).None?
    requires GodanSoundChange(verb.kana, false).Ok?
    ensures Conjugate(verb, t, ex) == Ok(ex.teForm[verb.kana] + (if t == PlainTeForm then "" else TeDerivedSuffix(t)))
  {
  }

  // ---------------------------------------------------------------------
  // Ichidan and irregular

  /**
   An ichidan verb fails only on a template without an ichidan rule; the
   dictionary form is the kana itself and the prohibitive appends な.
   */
  lemma IchidanDomain(verb: Verb, t: Template, ex: Exceptions)
    requires verb.verbClass == Ichidan && Manual(verb, t).None? && ProgressiveSuffix(t).None?
    ensures Conjugate(verb, t, ex).Err? <==> t != PlainDictionary && t != PlainProhibitive && IchidanSuffix(t).None?
    ensures Conjugate(verb, t, ex).Err? ==> Conjugate(verb, t, ex).error == UnsupportedTemplate(t)
    ensures t == PlainDictionary ==> Conjugate(verb, t, ex) == Ok(verb.kana)
    ensures t == PlainProhibitive ==> Conjugate(verb, t, ex) == Ok(verb.kana + "な")
    ensures IchidanSuffix(t).Some? && t != PlainTeForm && t != PlainPast && t != PoliteTeForm ==>
      Conjugate(verb, t, ex) == Ok(Stem(verb.kana) + IchidanSuffix(t).value)
  {
  }

  /**
   An irregular verb other than する, くる and ある has no table: every
   template without a manual override fails with the missing-entry error.
   */
  lemma IrregularNeedsTable(verb: Verb, t: Template, ex: Exceptions)
    requires verb.verbClass == Irregular && Manual(verb, t).None?
    requires ProgressiveSuffix(t).None? || Manual(verb, PlainTeForm).None?
    ensures Conjugate(verb, t, ex).Err? && Conjugate(verb, t, ex).error == MissingIrregularEntry(verb.kana)
      <==> IrregularOf(verb.kana).None?
  {
  }

  // ---------------------------------------------------------------------
  // Accepted answers

  lemma VariantsDistinct(stem: string)
    ensures NoDuplicates(ObligationVariants(stem))
    ensures forall s :: s in ObligationVariants(stem) ==> s != ""
  {
    var v := ObligationVariants(stem);
    assert v[0][|stem| + 2] != v[1][|stem| + 2];
    assert v[0][|stem| + 2] != v[2][|stem| + 2];
    assert v[1][|stem| + 2] != v[2][|stem| + 2];
  }

  /**
   For a verb whose negative ends in ない and whose obligation form is the
   regular one, the accepted answers are exactly the three spellings.
   */
  lemma AcceptedObligationExact(verb: Verb, ex: Exceptions)
    requires Conjugate(verb, PlainNegative, ex).Ok?
    requires EndsWith(Conjugate(verb, PlainNegative, ex).value, "ない")
    requires Manual(verb, PlainNakerebaIkenai).None? && Manual(verb, PlainNegative).None?
    ensures var negative := Conjugate(verb, PlainNegative, ex).value;
      ConjugateAccepted(verb, PlainNakerebaIkenai, ex) == Ok(ObligationVariants(negative[..|negative| - 2]))
  {
    var negative := Conjugate(verb, PlainNegative, ex).value;
    var v := ObligationVariants(negative[..|negative| - 2]);
    NegativeDerivedForms(verb, PlainNakerebaIkenai, ex);
    assert Conjugate(verb, PlainNakerebaIkenai, ex) == Ok(v[0]);
    ObligationAcceptedExact(negative);
    assert ConjugateAccepted(verb, PlainNakerebaIkenai, ex) == Ok(ObligationAccepted(v[0], negative));
  }

  /** With the first variant as the canonical form, the accepted answers are exactly the three variants. */
  lemma ObligationAcceptedExact(negative: string)
    requires EndsWith(negative, "ない")
    ensures var v := ObligationVariants(negative[..|negative| - 2]);
      ObligationAccepted(v[0], negative) == v
  {
    var stem := negative[..|negative| - 2];
    var v := ObligationVariants(stem);
    VariantsDistinct(stem);
    var values := [v[0]] + v;
    FilterAll(values, (s: string) => s != "");
    DedupOfRepeatedHead(v);
  }

  lemma DedupOfRepeatedHead(v: seq<string>)
    requires |v| == 3 && NoDuplicates(v)
    ensures Dedup([v[0]] + v) == v
  {
    DedupRepeatedHead3(v[0], v[1], v[2]);
    assert [v[0]] + v == [v[0], v[0], v[1], v[2]];
    assert v == [v[0], v[1], v[2]];
  }

  lemma DedupRepeatedHead3<T(!new)>(a: T, b: T, c: T)
    requires a != b && a != c && b != c
    ensures Dedup([a, a, b, c]) == [a, b, c]
  {
    DedupSnoc([], a);
    assert Dedup([a]) == [a] by { assert [] + [a] == [a]; }
    DedupSnoc([a], a);
    assert Dedup([a, a]) == [a] by { assert [a] + [a] == [a, a]; }
    DedupSnoc([a, a], b);
    assert Dedup([a, a, b]) == [a, b] by { assert [a, a] + [b] == [a, a, b]; }
    DedupSnoc([a, a, b], c);
    assert [a, a, b] + [c] == [a, a, b, c];
  }

  lemma DedupSnoc<T(!new)>(s: seq<T>, x: T)
    ensures Dedup(s + [x]) == if x in s then Dedup(s) else Dedup(s) + [x]
  {
    assert (s + [x])[..|s|] == s;
  }
}
