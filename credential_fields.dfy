/** The credential form: one input per registry field of the chosen provider,
    with a label, a placeholder, the current value and a masking rule. */
module CredentialFields {
  import opened Common
  import opened Registry
  import opened JsText

  /** One rendered `<input>` with its label. */
  datatype FieldInput = FieldInput(
    name: string,
    caption: string,
    masked: bool,
    shown: string,
    placeholder: string)

  /** `s.replace(/\b\w/g, l => l.toUpperCase())` when the character before `s` is a
      word character exactly when `prevWord` holds. */
  function CapitalizeWords(s: string, prevWord: bool): (r: string)
    ensures |r| == |s|
    ensures |s| > 0 ==> r[0] == (if IsWordChar(s[0]) && !prevWord then ToUpper(s[0]) else s[0])
    ensures forall i {:trigger r[i]} :: 0 < i < |s| ==>
      r[i] == (if IsWordChar(s[i]) && !IsWordChar(s[i - 1]) then ToUpper(s[i]) else s[i])
  {
    if s == [] then []
    else [if IsWordChar(s[0]) && !prevWord then ToUpper(s[0]) else s[0]]
         + CapitalizeWords(s[1..], IsWordChar(s[0]))
  }

  /** The label: underscores become spaces, then each word gets a capital. */
  function FieldLabel(name: string): (r: string)
    ensures |r| == |name|
    ensures forall i :: 0 <= i < |name| && name[i] == '_' ==> r[i] == ' '
  {
    var spaced := ReplaceChar(name, '_', ' ');
    var r := CapitalizeWords(spaced, false);
    assert forall i :: 0 <= i < |name| && name[i] == '_' ==> spaced[i] == ' ' && r[i] == ' ';
    r
  }

  /** The input is a password box when its name mentions a password or a key. */
  predicate IsMasked(name: string)
  {
    Contains(name, "password") || Contains(name, "key")
  }

  /** `credentials[field] || ''`. */
  function ShownValue(credentials: Credentials, name: string): (v: string)
    ensures name !in credentials ==> v == ""
    ensures name in credentials ==> v == credentials[name]
  {
    if name in credentials && credentials[name] != "" then credentials[name] else ""
  }

  /** `Enter ` and the name with its underscores turned into spaces. */
  function Placeholder(name: string): (r: string)
    ensures |r| == 6 + |name| && r[..6] == "Enter "
    ensures forall i :: 0 <= i < |name| ==> r[6 + i] == (if name[i] == '_' then ' ' else name[i])
  {
    "Enter " + ReplaceChar(name, '_', ' ')
  }

  /** The input rendered for one field. */
  function Input(credentials: Credentials, name: string): FieldInput
  {
    FieldInput(name, FieldLabel(name), IsMasked(name), ShownValue(credentials, name), Placeholder(name))
  }

  /** The inputs rendered for `p`, or `None` when the form renders nothing. */
  function Inputs(p: DatabaseProvider, credentials: Credentials): (r: Option<seq<FieldInput>>)
    ensures r.None? <==> p == NoProvider || p !in CredentialFieldTable
    ensures r.Some? ==>
      && |r.value| == |FieldsOf(p)|
      && forall i :: 0 <= i < |r.value| ==>
           r.value[i].name == FieldsOf(p)[i] && r.value[i] == Input(credentials, FieldsOf(p)[i])
  {
    if p == NoProvider || p !in CredentialFieldTable then None
    else
      var fs := CredentialFieldTable[p];
      Some(seq(|fs|, i requires 0 <= i < |fs| => Input(credentials, fs[i])))
  }

  /** Typing `value` into input `i`: the pair `onChange` receives, or nothing when
      there is no such input on screen. */
  function OnEdit(p: DatabaseProvider, credentials: Credentials, i: nat, value: string): (r: Option<(string, string)>)
    ensures r.Some? <==> p != NoProvider && i < |FieldsOf(p)|
    ensures r.Some? ==> r.value == (FieldsOf(p)[i], value) && r.value.0 in FieldSet(p)
  {
    match Inputs(p, credentials)
    case None => None
    case Some(inputs) => if i < |inputs| then Some((inputs[i].name, value)) else None
  }

  /** The rendered field names are exactly the registry's list for the provider,
      in the registry's order, whatever has been typed so far. */
  lemma RenderedNamesAreRegistry(p: DatabaseProvider, credentials: Credentials)
    requires p != NoProvider
    ensures Inputs(p, credentials).Some?
    ensures seq(|Inputs(p, credentials).value|, i requires 0 <= i < |Inputs(p, credentials).value| =>
                Inputs(p, credentials).value[i].name) == FieldsOf(p)
  {
    CredentialTableCoversProviders(p);
  }

  /** For a lower-case snake_case name every underscore shows as a space, every
      letter that starts the name or follows an underscore shows as a capital, and
      every other character is kept: `connection_string` reads `Connection String`. */
  lemma LabelOfSnakeCase(name: string, i: nat)
    requires forall k :: 0 <= k < |name| ==> name[k] == '_' || 'a' <= name[k] <= 'z'
    requires i < |name|
    ensures name[i] == '_' ==> FieldLabel(name)[i] == ' '
    ensures name[i] != '_' && (i == 0 || name[i - 1] == '_') ==>
      FieldLabel(name)[i] == ToUpper(name[i]) && 'A' <= FieldLabel(name)[i] <= 'Z'
    ensures name[i] != '_' && i > 0 && name[i - 1] != '_' ==> FieldLabel(name)[i] == name[i]
  {
    var spaced := ReplaceChar(name, '_', ' ');
    assert spaced[i] == (if name[i] == '_' then ' ' else name[i]);
    if i > 0 {
      assert spaced[i - 1] == (if name[i - 1] == '_' then ' ' else name[i - 1]);
    }
  }

  /** The password field is masked. */
  lemma PasswordIsMasked()
    ensures IsMasked("password")
  {
    assert OccursAt("password", "password", 0);
  }

  /** A name with neither a `k` nor a `w` cannot contain `password` or `key`. */
  lemma UnmaskedWithoutKOrW(name: string)
    requires 'k' !in name && 'w' !in name
    ensures !IsMasked(name)
  {
    AbsentCharBlocksMatch(name, "password", 'w');
    AbsentCharBlocksMatch(name, "key", 'k');
  }

  /** No registry field other than `password` mentions a password or a key. */
  lemma OtherFieldsAreNotMasked(p: DatabaseProvider, name: string)
    requires name in FieldSet(p) && name != "password"
    ensures !IsMasked(name)
  {
    assert name in ["host", "port", "username", "database", "connection_string"];
    UnmaskedWithoutKOrW(name);
  }
}
