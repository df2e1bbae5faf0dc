/** The deposit-form tools of the branch-office MCP server (src/negg-server/server.py).
    The clock, the customer table and the forms directory are parameters: the formatted
    `datetime.now()` stamp, the decoded customer file, and the decoded form files in the
    sorted order of their names. `str()` of a field value is the function `show`. */
module DepositForms {
  import opened Wrappers
  import opened Values
  import opened Customers
  import Text

  /** Why `new_deposit_form` stops before a form is written. */
  datatype DepositError =
    | Rejected(e: UtilError)   // raised by one of the validators of utils.py
    | AmountNotPositive        // AssertionError("台幣金額需大於0")

  /** A form that was written to `fileName` (relative to FORMS_DIR) and returned. */
  datatype Filed = Filed(fileName: string, form: Dict)

  /** The six keys of a deposit form, in the order the dict literal lists them. */
  const FormKeys: seq<string> := ["服務名稱", "帳戶號碼", "帳戶名稱", "金額", "存款備註", "填表時間"]

  /** The key a form's header shows and its body skips. */
  const ServiceKey: string := "服務名稱"

  /** The key of the filing time, shown in a form's header. */
  const TimeKey: string := "填表時間"

  /** The keys of a dict, in order. */
  function Keys(d: Dict): (r: seq<string>)
  {
    seq(|d|, i requires 0 <= i < |d| => d[i].0)
  }

  /** `new_deposit_form`: checks the applicant id, then the account, then the amount, then
      the notes; the first failing check decides the error and no form is written.
      Otherwise the form keeps the six keys in order and is written to
      `{applicant_id}_{timestamp}.json`. */
  function NewDepositForm(customers: Dict, accountNumber: string, name: string, amount: int,
                          applicantId: string, notes: Option<string>, timestamp: string): (r: Result<Filed, DepositError>)
    ensures ValidId(customers, applicantId).Failure? ==> r == Failure(Rejected(ValidId(customers, applicantId).error))
    ensures (&& ValidId(customers, applicantId).Success?
             && ValidAccount(customers, accountNumber).Failure?)
            ==> r == Failure(Rejected(ValidAccount(customers, accountNumber).error))
    ensures (&& ValidId(customers, applicantId).Success?
             && ValidAccount(customers, accountNumber).Success?
             && amount <= 0)
            ==> r == Failure(AmountNotPositive)
    ensures (&& ValidId(customers, applicantId).Success?
             && ValidAccount(customers, accountNumber).Success?
             && amount > 0
             && ProcessNotes(notes).Failure?)
            ==> r == Failure(Rejected(ProcessNotes(notes).error))
    ensures r.Success? <==> (&& ValidId(customers, applicantId).Success?
                             && ValidAccount(customers, accountNumber).Success?
                             && amount > 0
                             && ProcessNotes(notes).Success?)
    ensures r.Success? ==>
              && r.value.fileName == applicantId + "_" + timestamp + ".json"
              && r.value.form == DepositForm(accountNumber, name, amount, "", timestamp)
  {
    var _ :- ValidId(customers, applicantId).MapError(e => Rejected(e));
    var _ :- ValidAccount(customers, accountNumber).MapError(e => Rejected(e));
    if amount <= 0 then Failure(AmountNotPositive)
    else
      var n :- ProcessNotes(notes).MapError(e => Rejected(e));
      var form := [("服務名稱", JStr("台幣存款")), ("帳戶號碼", JStr(accountNumber)), ("帳戶名稱", JStr(name)),
                   ("金額", JInt(amount)), ("存款備註", JStr(n)), ("填表時間", JStr(timestamp))];
      Success(Filed(applicantId + "_" + timestamp + ".json", form))
  }

  /** The form built from the call's values and the processed note. As written, the
      note of a successful call is always "" (see ProcessNotes). */
  function DepositForm(accountNumber: string, name: string, amount: int, note: string, timestamp: string): Dict
  {
    [("服務名稱", JStr("台幣存款")), ("帳戶號碼", JStr(accountNumber)), ("帳戶名稱", JStr(name)),
     ("金額", JInt(amount)), ("存款備註", JStr(note)), ("填表時間", JStr(timestamp))]
  }

  /** A filed form has exactly the six keys, in order, each once, holding the call's values. */
  lemma DepositFormContents(accountNumber: string, name: string, amount: int, note: string, timestamp: string)
    ensures var f := DepositForm(accountNumber, name, amount, note, timestamp);
            && Keys(f) == FormKeys
            && DistinctKeys(f)
            && Get(f, "服務名稱") == Some(JStr("台幣存款"))
            && Get(f, "帳戶號碼") == Some(JStr(accountNumber))
            && Get(f, "帳戶名稱") == Some(JStr(name))
            && Get(f, "金額") == Some(JInt(amount))
            && Get(f, "存款備註") == Some(JStr(note))
            && Get(f, "填表時間") == Some(JStr(timestamp))
  {
    var f := DepositForm(accountNumber, name, amount, note, timestamp);
    assert Keys(f) == FormKeys;
    // The keys differ in their first character, except the two account keys,
    // which differ in their third.
    assert "帳戶號碼"[2] != "帳戶名稱"[2];
    assert DistinctKeys(f) by {
      forall i, j | 0 <= i < j < |f| ensures f[i].0 != f[j].0 {
        assert f[i].0[0] != f[j].0[0] || (i == 1 && j == 2);
      }
    }
    GetDistinct(f, 0);
    GetDistinct(f, 1);
    GetDistinct(f, 2);
    GetDistinct(f, 3);
    GetDistinct(f, 4);
    GetDistinct(f, 5);
  }

  /** In a dict with distinct keys, looking up the key of item `i` finds item `i`. */
  lemma GetDistinct(d: Dict, i: nat)
    requires DistinctKeys(d) && i < |d|
    ensures Get(d, d[i].0) == Some(d[i].1)
  {
    var r := Get(d, d[i].0);
    var j :| 0 <= j < |d| && d[j] == (d[i].0, r.value);
    assert j == i;
  }

  /** A note always rejects the form: its processing cannot succeed, and once the other
      checks pass the error is the undefined `strip`. */
  lemma NonEmptyNoteRejectsForm(customers: Dict, accountNumber: string, name: string, amount: int,
                                applicantId: string, note: string, timestamp: string)
    requires note != ""
    ensures var r := NewDepositForm(customers, accountNumber, name, amount, applicantId, Some(note), timestamp);
            && r.Failure?
            && (ValidId(customers, applicantId).Success? && ValidAccount(customers, accountNumber).Success? && amount > 0
                ==> r.error == Rejected(StripUndefined))
  {
  }

  /** `new_deposit_form` with `process_notes` corrected to `notes.strip()`: the same
      checks in the same order, and the stripped note goes into the form. */
  function NewDepositFormIntended(customers: Dict, accountNumber: string, name: string, amount: int,
                                  applicantId: string, notes: Option<string>, timestamp: string): (r: Result<Filed, DepositError>)
    ensures r.Success? <==> (&& ValidId(customers, applicantId).Success?
                             && ValidAccount(customers, accountNumber).Success?
                             && amount > 0)
  {
    var _ :- ValidId(customers, applicantId).MapError(e => Rejected(e));
    var _ :- ValidAccount(customers, accountNumber).MapError(e => Rejected(e));
    if amount <= 0 then Failure(AmountNotPositive)
    else
      var n := ProcessNotesIntended(notes);
      Success(Filed(applicantId + "_" + timestamp + ".json", DepositForm(accountNumber, name, amount, n, timestamp)))
  }

  /** With the corrected `process_notes`, a note no longer rejects the form: the form is
      written under the same name, and its 存款備註 is the note with the white space
      around it removed. Without a note, the corrected call files what the call as
      written files. */
  lemma IntendedFormKeepsNote(customers: Dict, accountNumber: string, name: string, amount: int,
                              applicantId: string, notes: Option<string>, timestamp: string)
    requires ValidId(customers, applicantId).Success? && ValidAccount(customers, accountNumber).Success? && amount > 0
    ensures var r := NewDepositFormIntended(customers, accountNumber, name, amount, applicantId, notes, timestamp);
            && r.Success?
            && r.value.fileName == applicantId + "_" + timestamp + ".json"
            && Get(r.value.form, "存款備註") == Some(JStr(if notes.Some? then Text.Strip(notes.value) else ""))
            && (notes.None? || notes.value == "" ==>
                  r == NewDepositForm(customers, accountNumber, name, amount, applicantId, notes, timestamp))
  {
    var n := ProcessNotesIntended(notes);
    DepositFormContents(accountNumber, name, amount, n, timestamp);
  }

  /** The answer when no form of the applicant is on file. */
  function NoFormsNotice(formsDir: string, applicantId: string): string
  {
    formsDir + "中沒有" + applicantId + "預填的表單"
  }

  /** The header line of form `i`: its index, service name and time. */
  function Header(i: nat, form: Json, show: Json -> string): (r: Result<string, AccessError>)
    ensures r.Success? <==> Subscript(form, ServiceKey).Success? && Subscript(form, TimeKey).Success?
  {
    var service :- Subscript(form, ServiceKey);
    var time :- Subscript(form, TimeKey);
    Success(Text.NatToString(i) + ". " + show(service) + ": " + show(time) + "\n")
  }

  /** The body lines of a form: one `\t{k}: {v}\n` per item except the service name,
      in the items' order. */
  function BodyLines(items: Dict, show: Json -> string): (r: seq<string>)
    ensures |r| <= |items|
  {
    if items == [] then []
    else
      var last := items[|items| - 1];
      BodyLines(items[..|items| - 1], show)
      + (if last.0 == ServiceKey then [] else [LineOf(last.0, last.1, show)])
  }

  /** The f-string `"\t{k}: {v}\n"`. */
  function LineOf(k: string, v: Json, show: Json -> string): string
  {
    "\t" + k + ": " + show(v) + "\n"
  }

  function Body(items: Dict, show: Json -> string): string
  {
    Text.Concat(BodyLines(items, show))
  }

  lemma BodySnoc(items: Dict, j: nat, show: Json -> string)
    requires j < |items|
    ensures BodyLines(items[..j + 1], show)
            == BodyLines(items[..j], show)
               + (if items[j].0 == ServiceKey then [] else [LineOf(items[j].0, items[j].1, show)])
  {
    assert items[..j + 1][..j] == items[..j];
  }

  /** The text of form `i`: its header, then its body. */
  function Block(i: nat, form: Json, show: Json -> string): Result<string, AccessError>
  {
    var header :- Header(i, form, show);
    var items :- Items(form);
    Success(header + Body(items, show))
  }

  /** The rendering of a non-empty list of forms: the blocks in order, numbered from 0;
      the first form that cannot be read ends it with an error. */
  function Rendered(forms: seq<Json>, show: Json -> string): Result<string, AccessError>
  {
    if forms == [] then Success("")
    else
      var before :- Rendered(forms[..|forms| - 1], show);
      var block :- Block(|forms| - 1, forms[|forms| - 1], show);
      Success(before + block)
  }

  lemma RenderedSnoc(forms: seq<Json>, i: nat, show: Json -> string)
    requires i < |forms| && Rendered(forms[..i], show).Success? && Block(i, forms[i], show).Success?
    ensures Rendered(forms[..i + 1], show)
            == Success(Rendered(forms[..i], show).value + Block(i, forms[i], show).value)
  {
    assert forms[..i + 1][..i] == forms[..i];
  }

  /** `get_filled_formats`: the notice when nothing is on file, otherwise the rendering
      accumulated form by form and item by item. */
  method GetFilledFormats(formsDir: string, applicantId: string, forms: seq<Json>, show: Json -> string)
    returns (r: Result<string, AccessError>)
    ensures forms == [] ==> r == Success(NoFormsNotice(formsDir, applicantId))
    ensures forms != [] ==> r == Rendered(forms, show)
  {
    if |forms| == 0 {
      return Success(NoFormsNotice(formsDir, applicantId));
    }
    var render := "";
    var i := 0;
    while i < |forms|
      invariant 0 <= i <= |forms|
      invariant Rendered(forms[..i], show) == Success(render)
    {
      ghost var done := render;
      var form := forms[i];
      var header := Header(i, form, show);
      if header.Failure? {
        RenderedStopsAtError(forms, i, show);
        return Failure(header.error);
      }
      render := render + header.value;
      // A form whose header was read is a dict, so `.items()` succeeds.
      var items := Items(form).value;
      render := AppendBody(render, items, show);
      AppendAssoc(done, header.value, Body(items, show));
      RenderedSnoc(forms, i, show);
      i := i + 1;
    }
    assert forms[..i] == forms;
    r := Success(render);
  }

  /** The inner loop of `get_filled_formats`: appends one `\t{k}: {v}\n` line per item
      except the service name. */
  method AppendBody(render: string, items: Dict, show: Json -> string) returns (out: string)
    ensures out == render + Body(items, show)
  {
    out := render;
    var j := 0;
    while j < |items|
      invariant 0 <= j <= |items|
      invariant out == render + Text.Concat(BodyLines(items[..j], show))
    {
      var (k, v) := items[j];
      ghost var lines := BodyLines(items[..j], show);
      BodySnoc(items, j, show);
      if k != ServiceKey {
        var line := LineOf(k, v, show);
        Text.ConcatSnoc(lines, line);
        AppendAssoc(render, Text.Concat(lines), line);
        out := out + line;
      } else {
        assert BodyLines(items[..j + 1], show) == lines;
      }
      j := j + 1;
    }
    assert items[..j] == items;
  }

  lemma AppendAssoc(a: string, b: string, c: string)
    ensures (a + b) + c == a + (b + c)
  {
  }

  /** Once form `i` cannot be rendered, the whole rendering fails with its error. */
  lemma {:induction false} RenderedStopsAtError(forms: seq<Json>, i: nat, show: Json -> string)
    requires i < |forms| && Rendered(forms[..i], show).Success?
    requires Block(i, forms[i], show).Failure?
    ensures Rendered(forms, show) == Failure(Block(i, forms[i], show).error)
    decreases |forms|
  {
    if i + 1 < |forms| {
      var init := forms[..|forms| - 1];
      assert init[..i] == forms[..i] && init[i] == forms[i];
      RenderedStopsAtError(init, i, show);
    } else {
      assert forms[..|forms| - 1] == forms[..i];
    }
  }

  /** A filed deposit form renders as the header `i. 台幣存款: <time>` and five body lines
      in the form's key order, so the time is shown both in the header and in the body. */
  lemma DepositFormBlock(accountNumber: string, name: string, amount: int, note: string, timestamp: string,
                         i: nat, show: Json -> string)
    ensures var f := JObj(DepositForm(accountNumber, name, amount, note, timestamp));
            && Header(i, f, show)
               == Success(Text.NatToString(i) + ". " + show(JStr("台幣存款")) + ": " + show(JStr(timestamp)) + "\n")
            && Items(f).Success?
            && BodyLines(Items(f).value, show) == [
                 LineOf("帳戶號碼", JStr(accountNumber), show),
                 LineOf("帳戶名稱", JStr(name), show),
                 LineOf("金額", JInt(amount), show),
                 LineOf("存款備註", JStr(note), show),
                 LineOf("填表時間", JStr(timestamp), show)]
  {
    DepositFormHeader(accountNumber, name, amount, note, timestamp, i, show);
    DepositFormLines(DepositForm(accountNumber, name, amount, note, timestamp), show);
  }

  lemma DepositFormHeader(accountNumber: string, name: string, amount: int, note: string, timestamp: string,
                          i: nat, show: Json -> string)
    ensures Header(i, JObj(DepositForm(accountNumber, name, amount, note, timestamp)), show)
            == Success(Text.NatToString(i) + ". " + show(JStr("台幣存款")) + ": " + show(JStr(timestamp)) + "\n")
  {
    var f := DepositForm(accountNumber, name, amount, note, timestamp);
    DepositFormContents(accountNumber, name, amount, note, timestamp);
    assert Subscript(JObj(f), ServiceKey) == Success(JStr("台幣存款"));
    assert Subscript(JObj(f), TimeKey) == Success(JStr(timestamp));
  }

  lemma DepositFormLines(f: Dict, show: Json -> string)
    requires |f| == 6
    requires f[0].0 == "服務名稱" && f[1].0 == "帳戶號碼" && f[2].0 == "帳戶名稱"
    requires f[3].0 == "金額" && f[4].0 == "存款備註" && f[5].0 == "填表時間"
    ensures BodyLines(f, show) == [
                 LineOf("帳戶號碼", f[1].1, show),
                 LineOf("帳戶名稱", f[2].1, show),
                 LineOf("金額", f[3].1, show),
                 LineOf("存款備註", f[4].1, show),
                 LineOf("填表時間", f[5].1, show)]
  {
    assert BodyLines(f[..0], show) == [];
    BodySnoc(f, 0, show);
    BodySnoc(f, 1, show);
    BodySnoc(f, 2, show);
    BodySnoc(f, 3, show);
    BodySnoc(f, 4, show);
    BodySnoc(f, 5, show);
    assert f[..6] == f;
  }
}
