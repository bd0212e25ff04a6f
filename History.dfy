/**
 The in-session password history: saved records in insertion order, the
 duplicate check over them, and the save and clear actions that change them.
 */
module History {
  import opened Strength

  /** One saved password; the timestamp is taken as an opaque string. */
  datatype PasswordRecord = PasswordRecord(
    account: string,
    password: string,
    strength: string,
    timestamp: string)

  /** The account name stored when the check tab saves without one. */
  const DefaultAccount: string := "Unnamed Account"

  /** The number of records whose password is exactly `password`. */
  function Occurrences(history: seq<PasswordRecord>, password: string): (n: nat)
    ensures n <= |history|
    ensures n == 0 <==> forall i :: 0 <= i < |history| ==> history[i].password != password
  {
    if history == [] then 0
    else
      var init := history[..|history| - 1];
      var n := Occurrences(init, password)
        + (if history[|history| - 1].password == password then 1 else 0);
      assert forall i :: 0 <= i < |init| ==> init[i] == history[i];
      n
  }

  /** Two different records carry `password`. */
  ghost predicate SavedTwice(history: seq<PasswordRecord>, password: string)
  {
    exists i, j :: 0 <= i < j < |history|
      && history[i].password == password && history[j].password == password
  }

  /** Counting at least two occurrences is the same as finding two records that carry the password. */
  lemma {:induction false} TwoOccurrences(history: seq<PasswordRecord>, password: string)
    ensures Occurrences(history, password) >= 2 <==> SavedTwice(history, password)
  {
    if history != [] {
      var last := |history| - 1;
      var init := history[..last];
      TwoOccurrences(init, password);
      if SavedTwice(init, password) {
        var i, j :| 0 <= i < j < |init|
          && init[i].password == password && init[j].password == password;
        assert history[i] == init[i] && history[j] == init[j];
      }
      if SavedTwice(history, password) {
        var i, j :| 0 <= i < j < |history|
          && history[i].password == password && history[j].password == password;
        if j < last {
          assert init[i] == history[i] && init[j] == history[j];
        } else {
          assert init[i] == history[i];
        }
      }
      if history[last].password == password && Occurrences(init, password) >= 1 {
        var i :| 0 <= i < |init| && init[i].password == password;
        assert history[i] == init[i];
      }
    }
  }

  /** Appending a record adds one occurrence of its own password and none of any other. */
  lemma OccurrencesAppend(history: seq<PasswordRecord>, r: PasswordRecord, password: string)
    ensures Occurrences(history + [r], password)
      == Occurrences(history, password) + (if r.password == password then 1 else 0)
  {
    assert (history + [r])[..|history|] == history;
  }

  /** The history of one session, the `history` list of the session state. */
  class HistoryStore {
    var records: seq<PasswordRecord>

    /** A new session starts with an empty history. */
    constructor ()
      ensures records == []
    {
      records := [];
    }

    /**
     `is_duplicate`: false on an empty history, otherwise whether at least two
     saved records carry exactly this password.
     */
    function IsDuplicate(password: string): (dup: bool)
      reads this
      ensures records == [] ==> !dup
      ensures dup <==> SavedTwice(records, password)
    {
      if records == [] then false
      else
        TwoOccurrences(records, password);
        Occurrences(records, password) >= 2
    }

    /**
     The save button of the check tab: nothing happens for an empty password;
     otherwise one record is appended, labelled by the password's score and
     filed under the default account when no name is given.
     */
    method Save(password: string, accountName: string, timestamp: string) returns (saved: bool)
      modifies this
      ensures saved <==> password != ""
      ensures !saved ==> records == old(records)
      ensures saved ==> records == old(records) + [PasswordRecord(
        if accountName == "" then DefaultAccount else accountName,
        password,
        StrengthLabel(CheckStrength(password).0),
        timestamp)]
      ensures saved ==> (IsDuplicate(password) <==> Occurrences(old(records), password) >= 1)
    {
      saved := password != "";
      if saved {
        var account := if accountName == "" then DefaultAccount else accountName;
        var score := CheckStrength(password).0;
        records := records + [PasswordRecord(account, password, StrengthLabel(score), timestamp)];
        OccurrencesAppend(old(records), records[|records| - 1], password);
        TwoOccurrences(records, password);
      }
    }

    /**
     The confirm button of the generate tab: the generated password is
     appended with the account name as entered, without substituting a default.
     */
    method SaveGenerated(generated: string, accountName: string, timestamp: string)
      modifies this
      ensures records == old(records) + [PasswordRecord(
        accountName, generated, StrengthLabel(CheckStrength(generated).0), timestamp)]
      ensures IsDuplicate(generated) <==> Occurrences(old(records), generated) >= 1
    {
      var score := CheckStrength(generated).0;
      records := records + [PasswordRecord(accountName, generated, StrengthLabel(score), timestamp)];
      OccurrencesAppend(old(records), records[|records| - 1], generated);
      TwoOccurrences(records, generated);
    }

    /** The clear button: the history becomes empty and no password is a duplicate. */
    method Clear()
      modifies this
      ensures records == []
      ensures forall password :: !IsDuplicate(password)
    {
      records := [];
    }
  }
}
