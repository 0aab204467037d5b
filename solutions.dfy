/**
 * The fixed, ordered catalogue of reference solutions the calculator offers
 * for selection, and the lookup by name the selection box performs on it.
 */
module Solutions {
  import opened PhConversions

  datatype Option<T> = None | Some(value: T)

  datatype Kind = Acid | Base

  /** A reference solution; formula and description are optional. */
  datatype Solution = Solution(
    name: string,
    kind: Kind,
    typicalPH: real,
    formula: Option<string>,
    description: Option<string>)

  const CommonSolutions: seq<Solution> := [
    Solution("Battery Acid", Acid, 0.5, Some("H₂SO₄"), Some("Sulfuric acid used in car batteries")),
    Solution("Gastric Acid", Acid, 1.5, Some("HCl"), Some("Found in stomach acid")),
    Solution("Lemon Juice", Acid, 2.4, Some("C₆H₈O₇"), Some("Citric acid in lemons")),
    Solution("Vinegar", Acid, 2.8, Some("CH₃COOH"), Some("Acetic acid in vinegar")),
    Solution("Orange Juice", Acid, 3.5, None, Some("Citrus juice")),
    Solution("Tomato Juice", Acid, 4.3, None, Some("Slightly acidic fruit juice")),
    Solution("Black Coffee", Acid, 5.0, None, Some("Brewed coffee without additives")),
    Solution("Urine", Acid, 6.0, None, Some("Human urine is slightly acidic")),
    Solution("Milk", Acid, 6.5, None, Some("Slightly acidic dairy product")),
    Solution("Pure Water", Base, 7.0, Some("H₂O"), Some("Completely neutral")),
    Solution("Blood", Base, 7.4, None, Some("Slightly basic human blood")),
    Solution("Seawater", Base, 8.0, None, Some("Slightly basic ocean water")),
    Solution("Baking Soda", Base, 9.0, Some("NaHCO₃"), Some("Sodium bicarbonate solution")),
    Solution("Milk of Magnesia", Base, 10.5, Some("Mg(OH)₂"), Some("Magnesium hydroxide antacid")),
    Solution("Household Ammonia", Base, 11.0, Some("NH₃"), Some("Cleaning solution")),
    Solution("Bleach", Base, 12.5, Some("NaClO"), Some("Sodium hypochlorite cleaner")),
    Solution("Drain Cleaner", Base, 14.0, Some("NaOH"), Some("Sodium hydroxide-based cleaner"))
  ]

  /** Each entry has a strictly higher typical pH than the one before it. */
  predicate StepsIncrease(s: seq<Solution>) {
    forall i :: 0 < i < |s| ==> s[i - 1].typicalPH < s[i].typicalPH
  }

  predicate StrictlyIncreasing(s: seq<Solution>) {
    forall i, j :: 0 <= i < j < |s| ==> s[i].typicalPH < s[j].typicalPH
  }

  /** Increasing from one entry to the next means increasing throughout. */
  lemma {:induction false} StepsMakeIncreasing(s: seq<Solution>)
    requires StepsIncrease(s)
    ensures StrictlyIncreasing(s)
  {
    if |s| > 1 {
      var t := s[..|s| - 1];
      assert StepsIncrease(t) by {
        forall i | 0 < i < |t| ensures t[i - 1].typicalPH < t[i].typicalPH {
          assert t[i - 1] == s[i - 1] && t[i] == s[i];
        }
      }
      StepsMakeIncreasing(t);
      forall i, j | 0 <= i < j < |s| ensures s[i].typicalPH < s[j].typicalPH {
        if j < |s| - 1 {
          assert s[i] == t[i] && s[j] == t[j];
        } else if i < |s| - 2 {
          assert s[i] == t[i] && s[|s| - 2] == t[|s| - 2];
        }
      }
    }
  }

  /** The catalogue's size and its landmarks: first, neutral water, last. */
  lemma CatalogueShape()
    ensures |CommonSolutions| == 17
    ensures CommonSolutions[0].name == "Battery Acid" && CommonSolutions[0].typicalPH == 0.5
    ensures CommonSolutions[9].name == "Pure Water" && CommonSolutions[9].typicalPH == 7.0
    ensures CommonSolutions[16].name == "Drain Cleaner" && CommonSolutions[16].typicalPH == 14.0
  {
  }

  /**
   * Typical pH values strictly increase along the catalogue and all lie on
   * the 0-14 scale.
   */
  lemma CatalogueOrdered()
    ensures StrictlyIncreasing(CommonSolutions)
    ensures forall i :: 0 <= i < |CommonSolutions| ==> InScale(CommonSolutions[i].typicalPH)
  {
    StepsMakeIncreasing(CommonSolutions);
  }

  /**
   * Acids are exactly the entries below neutral, and they all come first:
   * the first nine entries are acids, the rest (neutral water included)
   * bases.
   */
  lemma AcidsBeforeBases()
    ensures forall i :: 0 <= i < |CommonSolutions| ==>
      (CommonSolutions[i].kind == Acid <==> CommonSolutions[i].typicalPH < 7.0)
    ensures forall i :: 0 <= i < |CommonSolutions| ==>
      (CommonSolutions[i].kind == Acid <==> i < 9)
  {
  }

  /** No two entries share a name. */
  predicate DistinctNames(s: seq<Solution>) {
    forall i, j :: 0 <= i < j < |s| ==> s[i].name != s[j].name
  }

  lemma CatalogueNamesDistinct()
    ensures DistinctNames(CommonSolutions)
  {
  }

  /**
   * `Array.prototype.find` by name: the first entry carrying the name, or
   * nothing when no entry does.
   */
  function Find(s: seq<Solution>, name: string): (r: Option<Solution>)
    ensures r.None? <==> forall i :: 0 <= i < |s| ==> s[i].name != name
    ensures r.Some? ==> exists k :: (0 <= k < |s| && s[k] == r.value && r.value.name == name &&
      forall j :: 0 <= j < k ==> s[j].name != name)
  {
    if |s| == 0 then None
    else if s[0].name == name then Some(s[0])
    else
      var r := Find(s[1..], name);
      assert forall i :: 1 <= i < |s| ==> s[i] == s[1..][i - 1];
      if r.Some? then
        var k :| 0 <= k < |s[1..]| && s[1..][k] == r.value && r.value.name == name &&
          forall j :: 0 <= j < k ==> s[1..][j].name != name;
        assert s[k + 1] == r.value;
        r
      else r
  }

  /** Looking up an entry by its own name yields that very entry. */
  lemma FindByName(s: seq<Solution>, i: nat)
    requires DistinctNames(s)
    requires i < |s|
    ensures Find(s, s[i].name) == Some(s[i])
  {
    var r := Find(s, s[i].name);
    var k :| 0 <= k < |s| && s[k] == r.value && r.value.name == s[i].name &&
      forall j :: 0 <= j < k ==> s[j].name != s[i].name;
    if k < i {
      assert s[k].name == s[i].name;
    }
  }

  /** The selection box finds every catalogue entry by its name, unambiguously. */
  lemma CatalogueFindByName(i: nat)
    requires i < |CommonSolutions|
    ensures Find(CommonSolutions, CommonSolutions[i].name) == Some(CommonSolutions[i])
  {
    CatalogueNamesDistinct();
    FindByName(CommonSolutions, i);
  }

  /**
   * Selecting a catalogue entry feeds its typical pH to both concentration
   * functions, and neither call can fail on any entry.
   */
  lemma CatalogueConcentrationsDefined(pow10: real -> real, i: nat)
    requires i < |CommonSolutions|
    ensures CalculateHydrogenConcentration(pow10, CommonSolutions[i].typicalPH).Ok?
    ensures CalculateHydroxideConcentration(pow10, CommonSolutions[i].typicalPH).Ok?
  {
    CatalogueOrdered();
  }
}
