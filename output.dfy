/** Model of `createOutput` of `src/output/output.ts`: the per-level
    validator report. */
module Output {
  import opened Text

  datatype Level = Regex | Typo | Disposable | Mx | Smtp | Pattern | DomainReputation | Breach

  /** `OrderedLevels`: the order in which the validators run. */
  const OrderedLevels: seq<Level> := [Regex, Typo, Disposable, Mx, Smtp, Pattern, DomainReputation, Breach]

  /** Position of a level in `OrderedLevels`. */
  function Index(l: Level): (k: nat)
    ensures k < |OrderedLevels| && OrderedLevels[k] == l
  {
    match l
    case Regex => 0
    case Typo => 1
    case Disposable => 2
    case Mx => 3
    case Smtp => 4
    case Pattern => 5
    case DomainReputation => 6
    case Breach => 7
  }

  lemma IndexOfOrdered(k: nat)
    requires k < |OrderedLevels|
    ensures Index(OrderedLevels[k]) == k
  {
  }

  /** `SubOutputFormat`: `valid`, and a `reason` that may be absent. */
  datatype SubOutput = SubOutput(valid: bool, reason: Option<string>)

  /** The `enrichedData` argument as far as `createOutput` sees it: its own
      `valid`, `reason` and `validators`, when present, and every other
      field, kept as name/value text. */
  datatype Enriched = Enriched(
    valid: Option<bool>,
    reason: Option<Level>,
    validators: Option<map<Level, SubOutput>>,
    fields: map<string, string>)

  const NoData := Enriched(None, None, None, map[])

  datatype Report = Report(
    valid: bool,
    reason: Option<Level>,
    validators: map<Level, SubOutput>,
    fields: map<string, string>)

  /** The entry the report gives the level at position `k`. */
  function Entry(failLevel: Option<Level>, failReason: Option<string>, k: nat): SubOutput
  {
    if failLevel.None? || k < Index(failLevel.value) then SubOutput(true, None)
    else if k == Index(failLevel.value) then SubOutput(false, failReason)
    else SubOutput(false, None)
  }

  /** The `validators` object of the report. */
  function Validators(failLevel: Option<Level>, failReason: Option<string>): map<Level, SubOutput>
  {
    map l: Level | l in OrderedLevels :: Entry(failLevel, failReason, Index(l))
  }

  /** `createOutput`: start from `{valid: true, validators: {}}` overlaid with
      `enrichedData`, record the failing level, then walk `OrderedLevels`
      carrying `valid`. */
  method CreateOutput(failLevel: Option<Level>, failReason: Option<string>, enriched: Enriched)
    returns (out: Report)
    ensures out.fields == enriched.fields
    ensures failLevel.Some? ==> !out.valid && out.reason == failLevel
    ensures failLevel.None? ==> out.valid == (enriched.valid.None? || enriched.valid.value)
    ensures failLevel.None? ==> out.reason == enriched.reason
    ensures out.validators == Validators(failLevel, failReason)
  {
    var outValid := if enriched.valid.Some? then enriched.valid.value else true;
    var outReason := enriched.reason;
    var validators := if enriched.validators.Some? then enriched.validators.value else map[];
    if failLevel.Some? {
      outReason := failLevel;
      outValid := false;
    }
    var valid := true;
    for i := 0 to |OrderedLevels|
      invariant valid <==> failLevel.None? || i <= Index(failLevel.value)
      invariant forall l: Level :: Index(l) < i ==> l in validators && validators[l] == Entry(failLevel, failReason, Index(l))
    {
      var level := OrderedLevels[i];
      IndexOfOrdered(i);
      var levelOut := SubOutput(valid, None);
      if failLevel == Some(level) {
        valid := false;
        levelOut := SubOutput(false, failReason);
      }
      validators := validators[level := levelOut];
    }
    out := Report(outValid, outReason, validators, enriched.fields);
    EveryEntryIsValidators(validators, failLevel, failReason);
  }

  /** A map giving every level its entry is the `validators` object. */
  lemma EveryEntryIsValidators(m: map<Level, SubOutput>, failLevel: Option<Level>, failReason: Option<string>)
    requires forall l: Level :: l in m && m[l] == Entry(failLevel, failReason, Index(l))
    ensures m == Validators(failLevel, failReason)
  {
    var v := Validators(failLevel, failReason);
    forall l: Level ensures l in v {
      assert OrderedLevels[Index(l)] == l;
    }
    assert m.Keys == v.Keys;
  }

  /** The report always has an entry for every level. */
  lemma ValidatorsHaveEveryLevel(failLevel: Option<Level>, failReason: Option<string>)
    ensures forall l: Level :: l in Validators(failLevel, failReason)
  {
    var v := Validators(failLevel, failReason);
    forall l: Level ensures l in v {
      assert OrderedLevels[Index(l)] == l;
    }
  }

  /** With no failing level every entry is valid with no reason; with
      failing level `f`, the levels before it are valid, `f` carries the
      reason, and the levels after it are invalid with no reason. */
  lemma ValidatorsCases(failLevel: Option<Level>, failReason: Option<string>, l: Level)
    ensures var e := Validators(failLevel, failReason)[l];
      (failLevel.None? ==> e == SubOutput(true, None)) &&
      (failLevel.Some? && Index(l) < Index(failLevel.value) ==> e == SubOutput(true, None)) &&
      (failLevel == Some(l) ==> e == SubOutput(false, failReason)) &&
      (failLevel.Some? && Index(l) > Index(failLevel.value) ==> e == SubOutput(false, None))
  {
    assert OrderedLevels[Index(l)] == l;
  }

  /** Validity is monotone along `OrderedLevels`: once false it stays
      false. */
  lemma ValidityIsMonotone(failLevel: Option<Level>, failReason: Option<string>, a: Level, b: Level)
    requires Index(a) <= Index(b)
    ensures Validators(failLevel, failReason)[b].valid ==> Validators(failLevel, failReason)[a].valid
  {
    assert OrderedLevels[Index(a)] == a && OrderedLevels[Index(b)] == b;
  }

  /** At most one entry carries a reason, and only the failing level's. */
  lemma AtMostOneReason(failLevel: Option<Level>, failReason: Option<string>, a: Level)
    ensures Validators(failLevel, failReason)[a].reason.Some? ==> failLevel == Some(a)
  {
    assert OrderedLevels[Index(a)] == a;
    if failLevel.Some? && Index(a) == Index(failLevel.value) {
      IndexInjective(a, failLevel.value);
    }
  }

  lemma IndexInjective(a: Level, b: Level)
    requires Index(a) == Index(b)
    ensures a == b
  {
  }
}
