/**
 * The migrator's configuration hash. Keys are the names of Ruby symbols
 * (`:dry_run` is "dry_run"); values are the few Ruby values the options take.
 */
module Config {

  datatype Value = VBool(b: bool) | VStr(s: string) | VNil

  type Config = map<string, Value>

  /** `config[key]`: an absent key reads as `nil`. */
  function Get(c: Config, key: string): Value {
    if key in c then c[key] else VNil
  }

  /** Ruby truthiness: everything but `nil` and `false`. */
  predicate Truthy(v: Value) {
    v != VNil && v != VBool(false)
  }

  /** `config[key] == true`: only the boolean `true` itself counts. */
  predicate IsTrue(c: Config, key: string) {
    Get(c, key) == VBool(true)
  }

  /** `to_s`, as string interpolation applies it. */
  function ToS(v: Value): string {
    match v
    case VBool(b) => if b then "true" else "false"
    case VStr(s) => s
    case VNil => ""
  }

  /** `defaults.merge(supplied)`: every supplied key overrides its default. */
  function Merge(defaults: Config, supplied: Config): (r: Config)
    ensures r.Keys == defaults.Keys + supplied.Keys
    ensures forall k :: Get(r, k) == if k in supplied then supplied[k] else Get(defaults, k)
  {
    defaults + supplied
  }

  /** The defaults `TableMigrator::Base#initialize` merges the caller's options into. */
  const BaseDefaults: Config :=
    map["dry_run" := VBool(false), "create_temp_table" := VBool(true), "delta_column" := VStr("updated_at")]

  /** The defaults of the older monolithic `TableMigrator#initialize`. */
  const LegacyDefaults: Config := map["dry_run" := VBool(true)]

  function BaseConfig(supplied: Config): (r: Config)
    ensures Get(r, "dry_run") == if "dry_run" in supplied then supplied["dry_run"] else VBool(false)
    ensures Get(r, "create_temp_table") == if "create_temp_table" in supplied then supplied["create_temp_table"] else VBool(true)
    ensures Get(r, "delta_column") == if "delta_column" in supplied then supplied["delta_column"] else VStr("updated_at")
    ensures forall k :: k !in BaseDefaults.Keys ==> Get(r, k) == Get(supplied, k)
  {
    Merge(BaseDefaults, supplied)
  }

  function LegacyConfig(supplied: Config): (r: Config)
    ensures Get(r, "dry_run") == if "dry_run" in supplied then supplied["dry_run"] else VBool(true)
    ensures forall k :: k != "dry_run" ==> Get(r, k) == Get(supplied, k)
  {
    Merge(LegacyDefaults, supplied)
  }

  /** `dry_run?` of `Base` and of `CopyEngine`. */
  predicate DryRun(c: Config) {
    IsTrue(c, "dry_run")
  }

  /** With the Base defaults, a dry run happens exactly when the caller passed `true`. */
  lemma BaseDryRunOnlyWhenAsked(supplied: Config)
    ensures DryRun(BaseConfig(supplied)) <==> "dry_run" in supplied && supplied["dry_run"] == VBool(true)
  {
  }

  /** The older migrator is in dry-run mode unless the caller says otherwise. */
  lemma LegacyDryRunByDefault(supplied: Config)
    ensures "dry_run" !in supplied ==> DryRun(LegacyConfig(supplied))
    ensures "dry_run" in supplied ==> (DryRun(LegacyConfig(supplied)) <==> supplied["dry_run"] == VBool(true))
  {
  }

  /** `config[:delta_column] || "updated_at"` of the older migrator, as interpolated. */
  function LegacyDeltaColumn(c: Config): (r: string)
    ensures !Truthy(Get(c, "delta_column")) ==> r == "updated_at"
    ensures Get(c, "delta_column").VStr? ==> r == Get(c, "delta_column").s
    ensures Get(c, "delta_column") == VBool(true) ==> r == "true"
  {
    if Truthy(Get(c, "delta_column")) then ToS(Get(c, "delta_column")) else "updated_at"
  }

  /** The two migrators agree on the delta column when the option is absent or
      a string; a falsy option is replaced by `updated_at` only in the older one,
      while `Base` keeps it and interpolates it as it is. */
  lemma DeltaColumnDefaults(supplied: Config)
    ensures var base := ToS(Get(BaseConfig(supplied), "delta_column"));
      ("delta_column" !in supplied ==> LegacyDeltaColumn(LegacyConfig(supplied)) == base == "updated_at") &&
      ("delta_column" in supplied && supplied["delta_column"].VStr? ==>
        LegacyDeltaColumn(LegacyConfig(supplied)) == base == supplied["delta_column"].s) &&
      ("delta_column" in supplied && !Truthy(supplied["delta_column"]) ==>
        LegacyDeltaColumn(LegacyConfig(supplied)) == "updated_at" && base == ToS(supplied["delta_column"]))
  {
  }
}
