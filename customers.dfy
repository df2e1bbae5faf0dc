/** The customer look-ups and validators of the branch-office MCP server
    (src/negg-server/utils.py). Each helper re-reads CUSTOMERS_FILE; here the
    decoded file, a dict from account number to customer record, is a parameter. */
module Customers {
  import opened Wrappers
  import opened Values
  import Text

  /** The exceptions the helpers raise. */
  datatype UtilError =
    | AccountLength                 // Exception("帳號須為14碼")
    | AccountWrong                  // Exception("帳號錯誤")
    | IdLength                      // Exception("身分證字號須為10碼")
    | NoSuchPerson                  // Exception("查無此人:)")
    | RecordAccess(e: AccessError)  // `v["id"]` on a record that is not a dict or has no id
    | StripUndefined                // NameError: the bare name `strip` is not defined

  /** The first `n` records were read and none of them has the id `id`. */
  predicate NoMatchBefore(customers: Dict, id: string, n: nat)
    requires n <= |customers|
  {
    forall j :: 0 <= j < n ==>
      Subscript(customers[j].1, "id").Success? && Subscript(customers[j].1, "id").value != JStr(id)
  }

  /** Record `i` is the first one whose id is `id`. */
  predicate FirstMatchAt(customers: Dict, id: string, i: int)
  {
    0 <= i < |customers| && NoMatchBefore(customers, id, i) && Subscript(customers[i].1, "id") == Success(JStr(id))
  }

  /** What `get_account_by_id` computes: the first account, in the table's order, whose
      record has the id `id`; `None` when none has; the error of the first record, before
      any match, that cannot be subscripted with "id". */
  function AccountById(customers: Dict, id: string): (r: Result<Option<string>, AccessError>)
    ensures r.Success? && r.value.Some? ==>
              exists i :: FirstMatchAt(customers, id, i) && customers[i].0 == r.value.value
    ensures r == Success(None) <==> NoMatchBefore(customers, id, |customers|)
    ensures r.Failure? ==>
              exists i :: && 0 <= i < |customers| && NoMatchBefore(customers, id, i)
                          && Subscript(customers[i].1, "id") == Failure(r.error)
    decreases |customers|
  {
    if customers == [] then Success(None)
    else
      match Subscript(customers[0].1, "id")
      case Failure(e) => Failure(e)
      case Success(v) =>
        if v == JStr(id) then Success(Some(customers[0].0))
        else
          var r := AccountById(customers[1..], id);
          AccountByIdTail(customers, id, r);
          r
  }

  /** A result for the records after a first one that does not match is a result for
      the whole table. */
  lemma AccountByIdTail(customers: Dict, id: string, r: Result<Option<string>, AccessError>)
    requires customers != [] && Subscript(customers[0].1, "id").Success?
    requires Subscript(customers[0].1, "id").value != JStr(id)
    requires var rest := customers[1..];
             && (r.Success? && r.value.Some? ==>
                   exists i :: FirstMatchAt(rest, id, i) && rest[i].0 == r.value.value)
             && (r == Success(None) <==> NoMatchBefore(rest, id, |rest|))
             && (r.Failure? ==>
                   exists i :: && 0 <= i < |rest| && NoMatchBefore(rest, id, i)
                               && Subscript(rest[i].1, "id") == Failure(r.error))
    ensures r.Success? && r.value.Some? ==>
              exists i :: FirstMatchAt(customers, id, i) && customers[i].0 == r.value.value
    ensures r == Success(None) <==> NoMatchBefore(customers, id, |customers|)
    ensures r.Failure? ==>
              exists i :: && 0 <= i < |customers| && NoMatchBefore(customers, id, i)
                          && Subscript(customers[i].1, "id") == Failure(r.error)
  {
    var rest := customers[1..];
    assert forall j :: 0 <= j < |rest| ==> rest[j] == customers[j + 1];
    if r.Success? && r.value.Some? {
      var i :| FirstMatchAt(rest, id, i) && rest[i].0 == r.value.value;
      assert FirstMatchAt(customers, id, i + 1);
    }
    if r.Failure? {
      var i :| 0 <= i < |rest| && NoMatchBefore(rest, id, i)
        && Subscript(rest[i].1, "id") == Failure(r.error);
      assert NoMatchBefore(customers, id, i + 1);
    }
    assert NoMatchBefore(customers, id, |customers|) <==> NoMatchBefore(rest, id, |rest|);
  }

  /** `get_account_by_id`: a scan of the table's items that returns at the first match. */
  method GetAccountById(customers: Dict, id: string) returns (r: Result<Option<string>, AccessError>)
    ensures r == AccountById(customers, id)
  {
    var i := 0;
    while i < |customers|
      invariant 0 <= i <= |customers|
      invariant AccountById(customers[i..], id) == AccountById(customers, id)
    {
      var (k, v) := customers[i];
      assert customers[i..][1..] == customers[i + 1..];
      var vid := Subscript(v, "id");
      if vid.Failure? {
        return Failure(vid.error);
      }
      if vid.value == JStr(id) {
        return Success(Some(k));
      }
      i := i + 1;
    }
    return Success(None);
  }

  /** `get_info_by_account`: the record stored under the account number, `None` when the
      key is absent (the `KeyError` is caught). */
  function GetInfoByAccount(customers: Dict, number: string): (r: Option<Json>)
    ensures r.None? <==> !HasKey(customers, number)
    ensures r.Some? ==> (number, r.value) in customers
    ensures r.Some? && DistinctKeys(customers) ==>
              forall i :: 0 <= i < |customers| && customers[i].0 == number ==> customers[i].1 == r.value
  {
    var r := Get(customers, number);
    assert r.Some? && DistinctKeys(customers) ==>
             forall i :: 0 <= i < |customers| && customers[i].0 == number ==> customers[i].1 == r.value by {
      if r.Some? && DistinctKeys(customers) {
        var j :| 0 <= j < |customers| && customers[j] == (number, r.value);
        forall i | 0 <= i < |customers| && customers[i].0 == number ensures customers[i].1 == r.value {
          assert i == j;
        }
      }
    }
    r
  }

  /** `valid_account`: the length is checked before the look-up; on success it is always True. */
  function ValidAccount(customers: Dict, accountNumber: string): (r: Result<bool, UtilError>)
    ensures |accountNumber| != 14 ==> r == Failure(AccountLength)
    ensures (&& |accountNumber| == 14
             && (!HasKey(customers, accountNumber) || !Truthy(Get(customers, accountNumber).value)))
            ==> r == Failure(AccountWrong)
    ensures r.Success? <==> |accountNumber| == 14 && HasKey(customers, accountNumber)
                             && Truthy(Get(customers, accountNumber).value)
    ensures r.Success? ==> r.value
  {
    if |accountNumber| != 14 then Failure(AccountLength)
    else
      var info := GetInfoByAccount(customers, accountNumber);
      if info.None? || !Truthy(info.value) then Failure(AccountWrong)
      else Success(true)
  }

  /** `valid_id`: the length is checked first; then an id whose account look-up finds no
      account, or only the empty account number, is rejected. */
  function ValidId(customers: Dict, id: string): (r: Result<bool, UtilError>)
    ensures |id| != 10 ==> r == Failure(IdLength)
    ensures |id| == 10 && AccountById(customers, id).Failure? ==> r == Failure(RecordAccess(AccountById(customers, id).error))
    ensures |id| == 10 && NoMatchBefore(customers, id, |customers|) ==> r == Failure(NoSuchPerson)
    ensures |id| == 10 && AccountById(customers, id) == Success(Some("")) ==> r == Failure(NoSuchPerson)
    ensures r.Success? <==> |id| == 10 && (exists i :: FirstMatchAt(customers, id, i) && customers[i].0 != "")
    ensures r.Success? ==> r.value
  {
    if |id| != 10 then Failure(IdLength)
    else
      var account := AccountById(customers, id);
      assert (exists i :: FirstMatchAt(customers, id, i) && customers[i].0 != "")
             ==> account.Success? && account.value.Some? && account.value.value != "" by {
        FirstMatchUnique(customers, id);
      }
      match account
      case Failure(e) => Failure(RecordAccess(e))
      case Success(a) =>
        if a.None? || a.value == "" then Failure(NoSuchPerson)
        else Success(true)
  }

  /** There is only one first match: the index the scan stops at is determined. */
  lemma FirstMatchUnique(customers: Dict, id: string)
    ensures forall i, j :: FirstMatchAt(customers, id, i) && FirstMatchAt(customers, id, j) ==> i == j
  {
  }

  /** `process_notes`: no note, or an empty one, gives ""; any other note reaches the
      call `strip(notes)`, and `strip` is not defined in the module, so it raises. */
  function ProcessNotes(notes: Option<string>): (r: Result<string, UtilError>)
    ensures r == Success("") <==> notes.None? || notes.value == ""
    ensures r.Failure? <==> notes.Some? && notes.value != ""
    ensures r.Failure? ==> r.error == StripUndefined
  {
    if notes.None? || notes.value == "" then Success("") else Failure(StripUndefined)
  }

  /** `process_notes` as evidently intended, with `notes.strip()` in place of the undefined
      `strip(notes)`: it never fails, a falsy note gives "", and any other note keeps
      what lies between its leading and trailing white space. */
  function ProcessNotesIntended(notes: Option<string>): (r: string)
    ensures notes.None? || notes.value == "" ==> r == ""
    ensures notes.Some? ==> exists i, j ::
              && 0 <= i <= j <= |notes.value| && r == notes.value[i..j]
              && (forall k :: 0 <= k < i ==> Text.IsSpace(notes.value[k]))
              && (forall k :: j <= k < |notes.value| ==> Text.IsSpace(notes.value[k]))
    ensures r == [] || (!Text.IsSpace(r[0]) && !Text.IsSpace(r[|r| - 1]))
  {
    if notes.None? || notes.value == "" then
      assert notes.Some? ==> notes.value[0..0] == "";
      ""
    else
      Text.StripIsTrimmedSlice(notes.value);
      Text.Strip(notes.value)
  }
}
