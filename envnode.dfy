/**
 * An environment node of the lane: the badge label of its environment, the
 * width of its progress bar and the bar's colour.
 */
module EnvNode {
  import opened Common
  import opened Text

  /** `env?.toLowerCase() || ""`: the key the badge table is read with. */
  function EnvKey(env: Option<string>): (key: string)
    ensures env.None? ==> key == ""
    ensures env.Some? ==> key == ToLower(env.value)
  {
    if env.Some? then ToLower(env.value) else ""
  }

  /** The badge label: the four known keys, anything else Custom. */
  function EnvLabel(env: Option<string>): (shown: string)
    ensures shown == "Production" <==> EnvKey(env) == "prod" || EnvKey(env) == "production"
    ensures shown == "Staging" <==> EnvKey(env) == "staging"
    ensures shown == "UAT" <==> EnvKey(env) == "uat"
    ensures shown == "Custom" <==> EnvKey(env) !in {"staging", "uat", "prod", "production"}
  {
    var key := EnvKey(env);
    if key == "staging" then "Staging"
    else if key == "uat" then "UAT"
    else if key == "prod" || key == "production" then "Production"
    else "Custom"
  }

  /** The label does not depend on the case the environment is written in. */
  lemma LabelIgnoresCase(env: string)
    ensures EnvLabel(Some(ToUpper(env))) == EnvLabel(Some(env))
  {
    ToLowerOfToUpper(env);
  }

  /** The bar's width in percent: completed over total, 0 when there are no tasks. */
  function Progress(completed: nat, total: nat): (p: real)
    ensures total == 0 ==> p == 0.0
    ensures completed <= total ==> 0.0 <= p <= 100.0
    ensures total > 0 ==> (p == 100.0 <==> completed == total)
  {
    if total > 0 then
      var ratio := completed as real / total as real;
      assert ratio * total as real == completed as real;
      ratio * 100.0
    else 0.0
  }

  datatype BarColour = Destructive | Primary

  /** The destructive colour marks a blocked environment and nothing else. */
  function Bar(status: string): (c: BarColour)
    ensures c == Destructive <==> status == "blocked"
  {
    if status == "blocked" then Destructive else Primary
  }
}
