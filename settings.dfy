/** The `computation_params` keyword argument of the Kolmogorov-Smirnov and
    Wasserstein methods, and the calculation mode and bin count each
    constructor reads from it. */
module Settings {
  import opened Wrappers

  /** A value inside `computation_params`. */
  datatype Param =
    | Text(s: string)
    | Integer(i: int)
    | Section(entries: map<string, Param>)

  /** The calculation method; any other string or object compares unequal
      to all three names. */
  datatype CalcMode = Auto | Exact | Estimated | OtherMode

  /** The mode and the bin count a method keeps. `nBins` is None when the
      configured value is not an integer. */
  datatype ComputationSettings = ComputationSettings(mode: CalcMode, nBins: Option<int>)

  const DefaultBins := 10000

  const Default := ComputationSettings(Auto, Some(DefaultBins))

  function ModeOf(p: Param): CalcMode {
    match p
    case Text(s) =>
      if s == "auto" then Auto
      else if s == "exact" then Exact
      else if s == "estimated" then Estimated
      else OtherMode
    case _ => OtherMode
  }

  function BinsOf(p: Param): Option<int> {
    if p.Integer? then Some(p.i) else None
  }

  /** `.get('calculation_method', 'auto')` and `.get('n_bins', 10_000)` on a dictionary. */
  function ReadSettings(d: map<string, Param>): (s: ComputationSettings)
    ensures "calculation_method" !in d ==> s.mode == Auto
    ensures "n_bins" !in d ==> s.nBins == Some(DefaultBins)
    ensures "n_bins" in d && d["n_bins"].Integer? ==> s.nBins == Some(d["n_bins"].i)
    ensures "calculation_method" in d ==> s.mode == ModeOf(d["calculation_method"])
    ensures "n_bins" in d ==> s.nBins == BinsOf(d["n_bins"])
    ensures "n_bins" in d && !d["n_bins"].Integer? ==> s.nBins.None?
  {
    ComputationSettings(
      if "calculation_method" in d then ModeOf(d["calculation_method"]) else Auto,
      if "n_bins" in d then BinsOf(d["n_bins"]) else Some(DefaultBins))
  }

  /** The constructors as written: the presence test looks for the method's
      column name in `computation_params`, but the values are then read
      from the top level of `computation_params` itself. None stands for
      no `computation_params` keyword. */
  function SettingsAsWritten(params: Option<map<string, Param>>, columnName: string): (s: ComputationSettings)
    ensures params.None? || columnName !in params.value ==> s == Default
    ensures params.None? || "calculation_method" !in params.value ==> s.mode == Auto
    ensures params.None? || "n_bins" !in params.value ==> s.nBins == Some(DefaultBins)
    ensures params.Some? && columnName in params.value ==> s == ReadSettings(params.value)
  {
    if params.None? || columnName !in params.value then Default
    else ReadSettings(params.value)
  }

  /** A configuration keyed by the method's own name, the only shape the
      presence test lets through, has its settings ignored. */
  lemma AsWrittenIgnoresNestedSettings()
    ensures var params := Some(map["kolmogorov_smirnov" := Section(map["calculation_method" := Text("exact")])]);
      SettingsAsWritten(params, "kolmogorov_smirnov") == Default
  {
  }

  /** The constructors as evidently intended: the settings are read from
      the section under the method's column name. */
  function SettingsFor(params: Option<map<string, Param>>, columnName: string): (s: ComputationSettings)
    ensures params.None? || columnName !in params.value || !params.value[columnName].Section? ==> s == Default
    ensures params.Some? && columnName in params.value && params.value[columnName].Section? ==>
      s == ReadSettings(params.value[columnName].entries)
  {
    if params.None? || columnName !in params.value then Default
    else
      match params.value[columnName]
      case Section(entries) => ReadSettings(entries)
      case _ => Default
  }

  /** The intended reading honours a per-method section: the example above
      selects exact mode, and each method reads only its own section. */
  lemma SettingsForReadsOwnSection(mode: string, bins: int)
    ensures var params := Some(map[
        "kolmogorov_smirnov" := Section(map["calculation_method" := Text("exact")]),
        "wasserstein" := Section(map["calculation_method" := Text(mode), "n_bins" := Integer(bins)])]);
      SettingsFor(params, "kolmogorov_smirnov") == ComputationSettings(Exact, Some(DefaultBins)) &&
      SettingsFor(params, "wasserstein") == ComputationSettings(ModeOf(Text(mode)), Some(bins))
  {
  }

  /** Where the two readings differ: with a section under the method's
      name, the as-written constructor always ignores it unless the
      top-level dictionary itself holds the keys. */
  lemma AsWrittenDiffers(columnName: string, entries: map<string, Param>)
    requires columnName != "calculation_method" && columnName != "n_bins"
    requires "calculation_method" in entries && ModeOf(entries["calculation_method"]) != Auto
    ensures SettingsAsWritten(Some(map[columnName := Section(entries)]), columnName) == Default
    ensures SettingsFor(Some(map[columnName := Section(entries)]), columnName) != Default
  {
  }

  /** The size from which `auto` switches to the estimated computation. */
  const ExactLimit := 10000

  /** `_fit` keeps the raw reference sample. */
  predicate FitsExact(mode: CalcMode, referenceSize: nat) {
    (mode == Auto && referenceSize < ExactLimit) || mode == Exact
  }

  /** `_calculate` takes the binned, estimated path. */
  predicate CalculatesEstimated(mode: CalcMode, referenceSize: nat) {
    (mode == Auto && referenceSize >= ExactLimit) || mode == Estimated
  }

  /** For the three known modes `_calculate` takes the path `_fit` prepared
      for; any other mode bins in `_fit` and then asks for the raw sample
      in `_calculate`. */
  lemma ModesAgree(mode: CalcMode, referenceSize: nat)
    ensures mode != OtherMode ==> (FitsExact(mode, referenceSize) <==> !CalculatesEstimated(mode, referenceSize))
    ensures mode == OtherMode ==> !FitsExact(mode, referenceSize) && !CalculatesEstimated(mode, referenceSize)
  {
  }
}
