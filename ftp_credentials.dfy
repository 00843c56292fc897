/** The vault record `new_credentials` builds for an FTP login (the sync
    and async managers build the same record), and its publication. */
module FtpCredentials {
  import opened Wrappers
  import opened Text
  import opened CredentialManager

  /** The FTP password list. */
  const FtpPasswordListId: int := 208

  /** The keys a caller must supply. */
  predicate WellFormed(d: Info)
  {
    "UserName" in d && d["UserName"].Str? && "Password" in d && "Host" in d && "Port" in d && "FTP/SFTP" in d &&
    ("Title" in d ==> d["Title"].Str?)
  }

  /** The `data` dictionary of `new_credentials`. */
  function NewEntry(d: Info): (data: Info)
    requires WellFormed(d)
    ensures data.Keys == {"PasswordListID", "Title", "Notes", "UserName", "Password",
                          "GenericField1", "GenericField2", "GenericField3"}
    ensures data["PasswordListID"] == Num(FtpPasswordListId)
    ensures data["Title"].Str? && data["UserName"].Str?
    ensures data["Password"] == d["Password"] && data["GenericField1"] == d["Host"]
    ensures data["GenericField2"] == d["Port"] && data["GenericField3"] == d["FTP/SFTP"]
  {
    map["PasswordListID" := Num(FtpPasswordListId),
        "Title" := Str(if "Title" !in d then Upper(d["UserName"].s) else Upper(d["Title"].s)),
        "Notes" := if "Notes" in d then d["Notes"] else NoneVal,
        "UserName" := Str(Lower(d["UserName"].s)),
        "Password" := d["Password"],
        "GenericField1" := d["Host"],
        "GenericField2" := d["Port"],
        "GenericField3" := d["FTP/SFTP"]]
  }

  /** `new_credentials`: the record and whether the vault answered 201. */
  function NewCredentials(d: Info, status: Option<int>): (r: (Info, bool))
    requires WellFormed(d)
    ensures r.0 == NewEntry(d)
    ensures r.1 <==> status == Some(201)
  {
    (NewEntry(d), PublishNewPassword(status))
  }

  /** The title is the upper-cased Title when one is given and the
      upper-cased user name otherwise; the stored user name is lower-case,
      and notes default to None. Both title and user name are already in
      their final case: upper-casing or lower-casing them again changes
      nothing. */
  lemma NewEntryNames(d: Info)
    requires WellFormed(d)
    ensures var data := NewEntry(d);
            data["Title"] == Str(if "Title" in d then Upper(d["Title"].s) else Upper(d["UserName"].s)) &&
            data["UserName"] == Str(Lower(d["UserName"].s)) &&
            data["Notes"] == (if "Notes" in d then d["Notes"] else NoneVal) &&
            Upper(data["Title"].s) == data["Title"].s &&
            Lower(data["UserName"].s) == data["UserName"].s
  {
    UpperIdempotent(if "Title" in d then d["Title"].s else d["UserName"].s);
    LowerIdempotent(d["UserName"].s);
  }

  /** Once the vault holds the new entry (with its stored user name), the
      manager's `get_credentials` finds it under the user name the caller
      gave, in any capitalisation, provided no later entry has the same
      lower-case name. */
  lemma NewEntryFoundByAnyCase(d: Info, stored: seq<VaultEntry>, i: nat, asked: string)
    requires WellFormed(d)
    requires i < |stored| && stored[i].userName == NewEntry(d)["UserName"].s
    requires Lower(asked) == Lower(d["UserName"].s)
    requires forall j :: i < j < |stored| ==> Lower(stored[j].userName) != Lower(asked)
    ensures Lower(asked) in CredentialMap(stored)
    ensures CredentialMap(stored)[Lower(asked)] == EntryInfo(stored[i])
  {
    LowerIdempotent(d["UserName"].s);
    assert LastEntry(stored, i, Lower(asked));
    CredentialMapLast(stored, i, Lower(asked));
  }
}
