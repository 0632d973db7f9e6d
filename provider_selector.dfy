/** The provider drop-down: nothing until a type is chosen, then a placeholder
    followed by the type's providers with capitalised labels. */
module ProviderSelector {
  import opened Common
  import opened Registry
  import opened JsText

  /** One `<option>`: the value handed to `onChange` and the text shown. */
  datatype SelectOption = SelectOption(value: DatabaseProvider, caption: string)

  /** The first, empty-valued option. */
  const Placeholder := SelectOption(NoProvider, "Select database provider")

  /** An option's label: its value with the first letter upper-cased. */
  function Label(p: DatabaseProvider): string
  {
    CapitalizeFirst(ProviderName(p))
  }

  /** The options rendered for `t`, or `None` when the selector renders nothing. */
  function Options(t: DatabaseType): (r: Option<seq<SelectOption>>)
    ensures r.None? <==> t == NoType
    ensures r.Some? ==>
      && |r.value| == 1 + |ProvidersOf(t)|
      && r.value[0] == Placeholder
      && forall i :: 0 <= i < |ProvidersOf(t)| ==>
           r.value[i + 1].value == ProvidersOf(t)[i] && r.value[i + 1].caption == Label(ProvidersOf(t)[i])
  {
    if t == NoType then None
    else
      var ps := ProvidersOf(t);
      Some([Placeholder] + seq(|ps|, i requires 0 <= i < |ps| => SelectOption(ps[i], Label(ps[i]))))
  }

  /** Choosing option `i`: the raw value of that option, or nothing when no such
      option is on screen. */
  function OnSelect(t: DatabaseType, i: nat): (r: Option<DatabaseProvider>)
    ensures r.Some? <==> t != NoType && i <= |ProvidersOf(t)|
    ensures r.Some? ==> (r.value == NoProvider <==> i == 0)
    ensures r.Some? && i > 0 ==> r.value == ProvidersOf(t)[i - 1]
  {
    match Options(t)
    case None => None
    case Some(opts) => if i < |opts| then Some(opts[i].value) else None
  }

  /** Every label is the provider's name with its first letter turned into a
      capital and every other character kept, e.g. `postgresql` shows as `Postgresql`. */
  lemma LabelCapitalisesName(p: DatabaseProvider)
    requires p != NoProvider
    ensures |Label(p)| == |ProviderName(p)| > 0
    ensures 'A' <= Label(p)[0] <= 'Z' && Label(p)[0] == ToUpper(ProviderName(p)[0])
    ensures Label(p)[1..] == ProviderName(p)[1..]
  {
  }

  /** The labels the SQL type shows. */
  lemma SqlLabels()
    ensures Label(MySql) == "Mysql" && Label(PostgreSql) == "Postgresql" && Label(Supabase) == "Supabase"
    ensures Label(MongoDb) == "Mongodb"
  {
  }
}
