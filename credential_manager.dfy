/** The record-building and remapping logic of the asynchronous vault
    credential manager. The HTTP exchanges are inputs: a GET answer is a
    `Fetch` (a decoded JSON body, a client error or undecodable JSON), and
    a POST or PUT answer is the status code, or None for a client error. */
module CredentialManager {
  import opened Wrappers
  import opened Text

  /** A JSON value of a credential dictionary. */
  datatype Val = Num(n: int) | Str(s: string) | NoneVal

  /** A credential dictionary. */
  type Info = map<string, Val>

  /** One entry of `GenericFieldInfo`. */
  datatype GenericField = GenericField(displayName: string, value: string, fieldId: string)

  /** One password record as the vault returns it; `url` is None when the
      key is absent, `otp` is the `OTP` value (None or a string). */
  datatype VaultEntry = VaultEntry(passwordId: int, userName: string, password: string,
                                   fields: seq<GenericField>, url: Option<string>, otp: Option<string>)

  /** The answer to a GET. */
  datatype Fetch<T> = Fetched(body: T) | ClientFailure(detail: string) | BadJson(detail: string)

  /** `MissingCredentialsError`, and the KeyError of a missing `UserName`
      key in an update payload. */
  datatype CredError = MissingCredentials(message: string) | KeyError(key: string)

  /** A value as an f-string shows it. */
  function Shown(v: Val): string
  {
    match v
    case Num(n) => IntString(n)
    case Str(s) => s
    case NoneVal => "None"
  }

  /** The stored value of a generic field: lowercased exactly when the
      field's display name, lowercased, is `username`. */
  function FieldValue(f: GenericField): (v: string)
    ensures Lower(f.displayName) == "username" ==> v == Lower(f.value)
    ensures Lower(f.displayName) != "username" ==> v == f.value
  {
    if Lower(f.displayName) == "username" then Lower(f.value) else f.value
  }

  /** The generic fields written into `info` one after another. */
  function ApplyFields(info: Info, fields: seq<GenericField>): Info
  {
    if |fields| == 0 then info
    else
      var f := fields[|fields| - 1];
      ApplyFields(info, fields[..|fields| - 1])[f.displayName := Str(FieldValue(f))]
  }

  /** The dictionary built for one vault entry. */
  function EntryInfo(e: VaultEntry): Info
  {
    var base := map["PasswordID" := Num(e.passwordId), "UserName" := Str(e.userName), "Password" := Str(e.password)];
    var withFields := ApplyFields(base, e.fields);
    var withUrl := if e.url.Some? then withFields["URL" := Str(e.url.value)] else withFields;
    if Truthy(e.otp) then withUrl["OTP" := Str(e.otp.value)] else withUrl
  }

  /** The map `_get_credentials` builds: each entry stored under its
      lowercased user name, in order. */
  function CredentialMap(entries: seq<VaultEntry>): map<string, Info>
  {
    if |entries| == 0 then map[]
    else
      var e := entries[|entries| - 1];
      CredentialMap(entries[..|entries| - 1])[Lower(e.userName) := EntryInfo(e)]
  }

  /** `fields[i]` is the last generic field with display name `k`. */
  predicate LastField(fields: seq<GenericField>, i: int, k: string)
  {
    0 <= i < |fields| && fields[i].displayName == k &&
    forall j :: i < j < |fields| ==> fields[j].displayName != k
  }

  /** `entries[i]` is the last entry whose lowercased user name is `k`. */
  predicate LastEntry(entries: seq<VaultEntry>, i: int, k: string)
  {
    0 <= i < |entries| && Lower(entries[i].userName) == k &&
    forall j :: i < j < |entries| ==> Lower(entries[j].userName) != k
  }

  /** After the generic fields are written, a key is present iff it was
      there before or some field has it as display name. */
  lemma {:induction false} ApplyFieldsKeys(info: Info, fields: seq<GenericField>, k: string)
    ensures k in ApplyFields(info, fields) <==> k in info || exists i :: 0 <= i < |fields| && fields[i].displayName == k
  {
    if |fields| > 0 {
      var n := |fields| - 1;
      var init := fields[..n];
      ApplyFieldsKeys(info, init, k);
      if k == fields[n].displayName {
        assert fields[n].displayName == k;
      } else {
        if exists i :: 0 <= i < n && init[i].displayName == k {
          var i :| 0 <= i < n && init[i].displayName == k;
          assert fields[i].displayName == k;
        }
        if exists i :: 0 <= i < |fields| && fields[i].displayName == k {
          var i :| 0 <= i < |fields| && fields[i].displayName == k;
          assert init[i].displayName == k;
        }
      }
    }
  }

  /** A key that no generic field names keeps its old value. */
  lemma {:induction false} ApplyFieldsUntouched(info: Info, fields: seq<GenericField>, k: string)
    requires k in info
    requires forall i :: 0 <= i < |fields| ==> fields[i].displayName != k
    ensures k in ApplyFields(info, fields) && ApplyFields(info, fields)[k] == info[k]
  {
    if |fields| > 0 {
      var n := |fields| - 1;
      ApplyFieldsUntouched(info, fields[..n], k);
    }
  }

  /** A key that generic fields name holds the value of the last of them. */
  lemma {:induction false} ApplyFieldsLast(info: Info, fields: seq<GenericField>, i: int, k: string)
    requires LastField(fields, i, k)
    ensures k in ApplyFields(info, fields) && ApplyFields(info, fields)[k] == Str(FieldValue(fields[i]))
  {
    var n := |fields| - 1;
    if i < n {
      assert LastField(fields[..n], i, k);
      ApplyFieldsLast(info, fields[..n], i, k);
    }
  }

  /** Every key of the credential map is the lowercase user name of some
      entry, and every entry's lowercase user name is a key. */
  lemma {:induction false} CredentialMapKeys(entries: seq<VaultEntry>, k: string)
    ensures k in CredentialMap(entries) <==> exists i :: 0 <= i < |entries| && Lower(entries[i].userName) == k
  {
    if |entries| > 0 {
      var n := |entries| - 1;
      var init := entries[..n];
      CredentialMapKeys(init, k);
      if k == Lower(entries[n].userName) {
        assert Lower(entries[n].userName) == k;
      } else {
        if exists i :: 0 <= i < n && Lower(init[i].userName) == k {
          var i :| 0 <= i < n && Lower(init[i].userName) == k;
          assert Lower(entries[i].userName) == k;
        }
        if exists i :: 0 <= i < |entries| && Lower(entries[i].userName) == k {
          var i :| 0 <= i < |entries| && Lower(entries[i].userName) == k;
          assert Lower(init[i].userName) == k;
        }
      }
    }
  }

  /** Under a key sits the dictionary of the last entry with that
      lowercase user name: a later entry replaces an earlier one. */
  lemma {:induction false} CredentialMapLast(entries: seq<VaultEntry>, i: int, k: string)
    requires LastEntry(entries, i, k)
    ensures k in CredentialMap(entries) && CredentialMap(entries)[k] == EntryInfo(entries[i])
  {
    var n := |entries| - 1;
    if i < n {
      assert LastEntry(entries[..n], i, k);
      CredentialMapLast(entries[..n], i, k);
    }
  }

  /** Every credential dictionary holds the three record fields (unless a
      generic field of the same display name replaced them), the URL when
      the entry has one, and the OTP exactly when it is truthy or a generic
      field is called OTP. */
  lemma EntryInfoFields(e: VaultEntry)
    ensures var info := EntryInfo(e);
            "PasswordID" in info && "UserName" in info && "Password" in info &&
            (e.url.Some? ==> info["URL"] == Str(e.url.value)) &&
            (Truthy(e.otp) ==> info["OTP"] == Str(e.otp.value)) &&
            (!Truthy(e.otp) && (forall i :: 0 <= i < |e.fields| ==> e.fields[i].displayName != "OTP") ==>
               "OTP" !in info)
  {
    var base := map["PasswordID" := Num(e.passwordId), "UserName" := Str(e.userName), "Password" := Str(e.password)];
    ApplyFieldsKeys(base, e.fields, "PasswordID");
    ApplyFieldsKeys(base, e.fields, "UserName");
    ApplyFieldsKeys(base, e.fields, "Password");
    ApplyFieldsKeys(base, e.fields, "OTP");
  }

  /** The error message of a failed GET of the whole password list. */
  function ListFetchError<T>(listId: int, f: Fetch<T>): CredError
    requires !f.Fetched?
  {
    match f
    case ClientFailure(d) => MissingCredentials("Error retrieving credentials from password list " + IntString(listId) + ": " + d)
    case BadJson(d) => MissingCredentials("Invalid JSON response from vault: " + d)
  }

  /** The `for field in password['GenericFieldInfo']` loop and the URL and
      OTP additions that follow it. */
  method BuildInfo(e: VaultEntry) returns (info: Info)
    ensures info == EntryInfo(e)
  {
    info := map["PasswordID" := Num(e.passwordId), "UserName" := Str(e.userName), "Password" := Str(e.password)];
    ghost var base := info;
    var i := 0;
    while i < |e.fields|
      invariant 0 <= i <= |e.fields|
      invariant info == ApplyFields(base, e.fields[..i])
    {
      var f := e.fields[i];
      assert e.fields[..i + 1][..i] == e.fields[..i];
      info := info[f.displayName := Str(if Lower(f.displayName) == "username" then Lower(f.value) else f.value)];
      i := i + 1;
    }
    assert e.fields[..|e.fields|] == e.fields;
    if e.url.Some? {
      info := info["URL" := Str(e.url.value)];
    }
    if e.otp.Some? && e.otp.value != "" {
      info := info["OTP" := Str(e.otp.value)];
    }
  }

  /** `_get_credentials`: an empty list raises; otherwise every entry is
      stored under its lowercased user name. */
  method GetAllCredentials(listId: int, response: Fetch<seq<VaultEntry>>) returns (r: Result<map<string, Info>, CredError>)
    ensures !response.Fetched? ==> r == Err(ListFetchError(listId, response))
    ensures response.Fetched? && |response.body| == 0 ==>
              r == Err(MissingCredentials("No credentials found in this Password List"))
    ensures response.Fetched? && |response.body| > 0 ==> r == Ok(CredentialMap(response.body))
  {
    if !response.Fetched? {
      return Err(ListFetchError(listId, response));
    }
    var passwords := response.body;
    if |passwords| == 0 {
      return Err(MissingCredentials("No credentials found in this Password List"));
    }
    var dict: map<string, Info> := map[];
    var i := 0;
    while i < |passwords|
      invariant 0 <= i <= |passwords|
      invariant dict == CredentialMap(passwords[..i])
    {
      var info := BuildInfo(passwords[i]);
      assert passwords[..i + 1][..i] == passwords[..i];
      dict := dict[Lower(passwords[i].userName) := info];
      i := i + 1;
    }
    assert passwords[..|passwords|] == passwords;
    r := Ok(dict);
  }

  /** `_get_credential`: only the first element of the answer is used. */
  method GetCredential(passwordId: int, response: Fetch<seq<VaultEntry>>) returns (r: Result<Info, CredError>)
    ensures response.ClientFailure? ==>
              r == Err(MissingCredentials("Error retrieving credential with ID " + IntString(passwordId) + ": " + response.detail))
    ensures response.BadJson? ==> r == Err(MissingCredentials("Invalid JSON response from vault: " + response.detail))
    ensures response.Fetched? && |response.body| == 0 ==>
              r == Err(MissingCredentials("No credentials found with ID " + IntString(passwordId)))
    ensures response.Fetched? && |response.body| > 0 ==> r == Ok(EntryInfo(response.body[0]))
  {
    match response {
      case ClientFailure(d) =>
        return Err(MissingCredentials("Error retrieving credential with ID " + IntString(passwordId) + ": " + d));
      case BadJson(d) =>
        return Err(MissingCredentials("Invalid JSON response from vault: " + d));
      case Fetched(body) =>
        if |body| == 0 {
          return Err(MissingCredentials("No credentials found with ID " + IntString(passwordId)));
        }
        var info := BuildInfo(body[0]);
        r := Ok(info);
    }
  }

  /** `get_credentials`: the lookup is by the lowercased name, so any
      capitalisation of a stored user name finds the last entry with that
      name. */
  method GetCredentials(listId: int, response: Fetch<seq<VaultEntry>>, username: string) returns (r: Result<Info, CredError>)
    ensures !response.Fetched? ==> r == Err(ListFetchError(listId, response))
    ensures response.Fetched? && |response.body| == 0 ==>
              r == Err(MissingCredentials("No credentials found in this Password List"))
    ensures response.Fetched? && |response.body| > 0 ==>
              var entries := response.body;
              ((exists i :: 0 <= i < |entries| && Lower(entries[i].userName) == Lower(username)) <==> r.Ok?) &&
              (r.Err? ==> r.error == MissingCredentials("Credentials for " + username + " not found in this Password List")) &&
              (forall i :: LastEntry(entries, i, Lower(username)) ==> r == Ok(EntryInfo(entries[i])))
  {
    var all := GetAllCredentials(listId, response);
    if all.Err? {
      return Err(all.error);
    }
    var key := Lower(username);
    CredentialMapKeys(response.body, key);
    forall i | LastEntry(response.body, i, key)
      ensures all.value[key] == EntryInfo(response.body[i])
    {
      CredentialMapLast(response.body, i, key);
    }
    if key !in all.value {
      return Err(MissingCredentials("Credentials for " + username + " not found in this Password List"));
    }
    r := Ok(all.value[key]);
  }

  /** `_publish_new_password`: True iff the POST answers 201. */
  function PublishNewPassword(status: Option<int>): (ok: bool)
    ensures ok <==> status == Some(201)
  {
    status.Some? && status.value == 201
  }

  /** The answer to the PUT of `update_credential`: True iff it is 200. */
  function PutAccepted(status: Option<int>): (ok: bool)
    ensures ok <==> status == Some(200)
  {
    status.Some? && status.value == 200
  }

  /** The payload after the generic-field loop: each display name present
      is replaced by its field id, the value moving with it. */
  function Remap(items: Info, fields: seq<GenericField>): Info
  {
    if |fields| == 0 then items
    else
      var prev := Remap(items, fields[..|fields| - 1]);
      var f := fields[|fields| - 1];
      if f.displayName in prev then prev[f.fieldId := prev[f.displayName]] - {f.displayName} else prev
  }

  /** Keys that no field names, as display name or as id, keep their
      presence and value. */
  lemma {:induction false} RemapUntouched(items: Info, fields: seq<GenericField>, k: string)
    requires forall i :: 0 <= i < |fields| ==> fields[i].displayName != k && fields[i].fieldId != k
    ensures (k in Remap(items, fields) <==> k in items)
    ensures k in items ==> Remap(items, fields)[k] == items[k]
  {
    if |fields| > 0 {
      RemapUntouched(items, fields[..|fields| - 1], k);
    }
  }

  /** When every display name and field id is distinct from every other,
      the value under each display name present in the payload ends up
      under that field's id, and the display name is gone. */
  lemma {:induction false} RemapMoves(items: Info, fields: seq<GenericField>, i: nat)
    requires i < |fields| && fields[i].displayName in items
    requires forall j :: 0 <= j < |fields| ==> fields[j].fieldId !in items
    requires forall j, l :: 0 <= j < |fields| && 0 <= l < |fields| && j != l ==>
               fields[j].displayName != fields[l].displayName && fields[j].fieldId != fields[l].fieldId &&
               fields[j].displayName != fields[l].fieldId
    requires forall j :: 0 <= j < |fields| ==> fields[j].displayName != fields[j].fieldId
    ensures var r := Remap(items, fields);
            fields[i].fieldId in r && r[fields[i].fieldId] == items[fields[i].displayName] &&
            fields[i].displayName !in r
  {
    var n := |fields| - 1;
    var init := fields[..n];
    var f := fields[n];
    if i == n {
      RemapUntouched(items, init, f.displayName);
      RemapUntouched(items, init, f.fieldId);
    } else {
      RemapMoves(items, init, i);
      var prev := Remap(items, init);
      assert f.displayName != fields[i].fieldId && f.fieldId != fields[i].fieldId;
      assert f.displayName != fields[i].displayName;
    }
  }

  /** The payload dictionary of `update_credential`, which the method
      changes in place so that the caller sees the changes. */
  class Payload {
    var items: Info

    constructor(items: Info)
      ensures this.items == items
    {
      this.items := items;
    }
  }

  /** Index of the first vault entry whose user name equals `name` exactly,
      or `|entries|` when there is none. */
  function FirstMatch(entries: seq<VaultEntry>, name: Val): (k: nat)
    ensures k <= |entries|
    ensures k < |entries| ==> Str(entries[k].userName) == name
    ensures forall j :: 0 <= j < k ==> Str(entries[j].userName) != name
  {
    if |entries| == 0 then 0
    else if Str(entries[0].userName) == name then 0
    else 1 + FirstMatch(entries[1..], name)
  }

  /** `update_credential`: drops OTP, finds the first entry with exactly
      the same user name (case-sensitive), renames the payload's display
      names to field ids, and reports whether the PUT answered 200. When a
      generic field displayed as `UserName` has moved that key to its field
      id, the message formatted after the PUT raises KeyError instead. */
  method UpdateCredential(listId: int, payload: Payload, response: Fetch<seq<VaultEntry>>, putStatus: Option<int>)
    returns (r: Result<bool, CredError>)
    modifies payload
    ensures var start := old(payload.items) - {"OTP"};
            "UserName" !in start ==> r == Err(KeyError("UserName")) && payload.items == start
    ensures var start := old(payload.items) - {"OTP"};
            "UserName" in start && !response.Fetched? ==>
              r == Err(ListFetchError(listId, response)) && payload.items == start
    ensures var start := old(payload.items) - {"OTP"};
            "UserName" in start && response.Fetched? ==>
              var name := start["UserName"];
              var k := FirstMatch(response.body, name);
              (k == |response.body| ==>
                 r == Err(MissingCredentials("Credentials for " + Shown(name) + " not found in this Password List")) &&
                 payload.items == start) &&
              (k < |response.body| ==>
                 var sent := Remap(start, response.body[k].fields);
                 payload.items == sent &&
                 ("UserName" in sent ==> r == Ok(PutAccepted(putStatus))) &&
                 ("UserName" !in sent ==> r == Err(KeyError("UserName"))))
  {
    if "OTP" in payload.items {
      payload.items := payload.items - {"OTP"};
    }
    assert payload.items == old(payload.items) - {"OTP"};
    if "UserName" !in payload.items {
      return Err(KeyError("UserName"));
    }
    if !response.Fetched? {
      return Err(ListFetchError(listId, response));
    }
    var passwords := response.body;
    var name := payload.items["UserName"];
    var k := 0;
    while k < |passwords| && Str(passwords[k].userName) != name
      invariant 0 <= k <= |passwords|
      invariant forall j :: 0 <= j < k ==> Str(passwords[j].userName) != name
    {
      k := k + 1;
    }
    assert k == FirstMatch(passwords, name) by {
      FirstMatchUnique(passwords, name, k);
    }
    if k == |passwords| {
      return Err(MissingCredentials("Credentials for " + Shown(name) + " not found in this Password List"));
    }
    var fields := passwords[k].fields;
    ghost var start := payload.items;
    var i := 0;
    while i < |fields|
      invariant 0 <= i <= |fields|
      invariant payload.items == Remap(start, fields[..i])
    {
      var f := fields[i];
      assert fields[..i + 1][..i] == fields[..i];
      if f.displayName in payload.items {
        payload.items := payload.items[f.fieldId := payload.items[f.displayName]];
        payload.items := payload.items - {f.displayName};
      }
      i := i + 1;
    }
    assert fields[..|fields|] == fields;
    // Every exit after the PUT formats `credentials_dict['UserName']`.
    if "UserName" !in payload.items {
      return Err(KeyError("UserName"));
    }
    r := Ok(putStatus.Some? && putStatus.value == 200);
  }

  /** The first-match index is determined by its two defining facts. */
  lemma {:induction false} FirstMatchUnique(entries: seq<VaultEntry>, name: Val, k: nat)
    requires k <= |entries|
    requires k < |entries| ==> Str(entries[k].userName) == name
    requires forall j :: 0 <= j < k ==> Str(entries[j].userName) != name
    ensures k == FirstMatch(entries, name)
  {
    if |entries| > 0 && k > 0 {
      FirstMatchUnique(entries[1..], name, k - 1);
    }
  }
}
