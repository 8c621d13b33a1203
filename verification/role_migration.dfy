/**
 The data migration that renames the stored account roles from lower case
 to upper case, and its reverse. Each maps a role through a fixed table and
 leaves every value outside the table as it is; only the role of each
 account record is written.
 */
module RoleMigration {

  const OldChoices: seq<string> := ["user", "servicer", "admin"]
  const OldDefault: string := "user"
  const NewChoices: seq<string> := ["USER", "SERVICER", "ADMIN"]
  const NewDefault: string := "USER"

  const ToUpper: map<string, string> := map["user" := "USER", "servicer" := "SERVICER", "admin" := "ADMIN"]
  const ToLower: map<string, string> := map["USER" := "user", "SERVICER" := "servicer", "ADMIN" := "admin"]

  function Forward(role: string): string {
    if role in ToUpper then ToUpper[role] else role
  }

  function Backward(role: string): string {
    if role in ToLower then ToLower[role] else role
  }

  /** The fields of an account record the migration reads or writes. */
  datatype Account = Account(id: nat, username: string, email: string, phone: string, role: string)

  /** Forward sends the i-th old choice to the i-th new choice, the old default
      to the new one, and fixes every other value. */
  lemma ForwardTable(role: string)
    ensures forall i :: 0 <= i < |OldChoices| ==> Forward(OldChoices[i]) == NewChoices[i]
    ensures Forward(OldDefault) == NewDefault
    ensures role !in OldChoices ==> Forward(role) == role
  {
  }

  /** Backward sends the i-th new choice to the i-th old choice and fixes every
      other value. */
  lemma BackwardTable(role: string)
    ensures forall i :: 0 <= i < |NewChoices| ==> Backward(NewChoices[i]) == OldChoices[i]
    ensures role !in NewChoices ==> Backward(role) == role
  {
  }

  /** Reversing after migrating restores every value that was not already one
      of the new upper-case choices; the migration applied twice is the
      migration applied once. */
  lemma RoundTrip(role: string)
    ensures role !in NewChoices ==> Backward(Forward(role)) == role
    ensures role !in OldChoices ==> Forward(Backward(role)) == role
    ensures Forward(Forward(role)) == Forward(role)
    ensures Backward(Backward(role)) == Backward(role)
  {
  }

  /** A value already upper case before the migration does not come back. */
  lemma UpperCaseDoesNotRoundTrip()
    ensures Backward(Forward("USER")) == "user"
  {
  }

  /** Migrating the records one by one rewrites each role and nothing else. */
  method MigrateForward(accounts: seq<Account>) returns (out: seq<Account>)
    ensures |out| == |accounts|
    ensures forall i :: 0 <= i < |out| ==> out[i] == accounts[i].(role := Forward(accounts[i].role))
  {
    out := [];
    var k := 0;
    while k < |accounts|
      invariant 0 <= k <= |accounts|
      invariant |out| == k
      invariant forall i :: 0 <= i < k ==> out[i] == accounts[i].(role := Forward(accounts[i].role))
    {
      var a := accounts[k];
      if a.role in ToUpper {
        a := a.(role := ToUpper[a.role]);
      }
      out := out + [a];
      k := k + 1;
    }
  }

  /** The reverse migration, record by record. */
  method MigrateBackward(accounts: seq<Account>) returns (out: seq<Account>)
    ensures |out| == |accounts|
    ensures forall i :: 0 <= i < |out| ==> out[i] == accounts[i].(role := Backward(accounts[i].role))
  {
    out := [];
    var k := 0;
    while k < |accounts|
      invariant 0 <= k <= |accounts|
      invariant |out| == k
      invariant forall i :: 0 <= i < k ==> out[i] == accounts[i].(role := Backward(accounts[i].role))
    {
      var a := accounts[k];
      if a.role in ToLower {
        a := a.(role := ToLower[a.role]);
      }
      out := out + [a];
      k := k + 1;
    }
  }

  /** Migrating forward then back restores every record set that held no
      upper-case role beforehand. */
  method MigrateRoundTrip(accounts: seq<Account>) returns (back: seq<Account>)
    requires forall i :: 0 <= i < |accounts| ==> accounts[i].role !in NewChoices
    ensures back == accounts
  {
    var up := MigrateForward(accounts);
    back := MigrateBackward(up);
    forall i | 0 <= i < |accounts|
      ensures back[i] == accounts[i]
    {
      RoundTrip(accounts[i].role);
    }
  }
}
