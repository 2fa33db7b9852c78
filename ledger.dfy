/** `format_amount`, `get_category_from_mcc`, `convert_transaction` and
    the mapping part of `convert_json_to_ledger`: one ledger entry per
    transaction record, entries separated by a blank line. */
module Ledger {
  import opened Values
  import opened Text
  import opened Metadata

  /** The category of a code the table does not know. */
  const Fallback: string := "Expense:Uncategorized"

  /** The posting account of every card transaction, before the card id. */
  const CardAccount: string := "Liabilities:CreditCard:Cal:"

  /** Four spaces: the indentation of comment and posting lines. */
  const Indentation: string := "    "

  /** `f"{amount:.2f}"`. An int (a bool counts as 0 or 1) is first
      converted to a float, which rounds it to 53 significant binary digits
      and overflows from 2^1024 on; the float it becomes holds an integer,
      written out in full with two zero decimals. A float is left to
      `env.fixed2`; any other value cannot take the `f` format. */
  function AmountText(amount: Value, env: Env): (r: Result<string>)
    ensures r.Ok? <==> (amount.Int? && IntToFloat(amount.i).Some?) || amount.Bool? || amount.Num?
    ensures r.Err? ==> r.error == BadValue("amountForDisplay")
  {
    match amount
    case Int(i) =>
      (match IntToFloat(i)
       case Some(x) => Ok(IntToDecimal(x) + ".00")
       case None => Err(BadValue("amountForDisplay")))
    case Bool(b) => Ok(if b then "1.00" else "0.00")
    case Num(x) => Ok(env.fixed2(x))
    case _ => Err(BadValue("amountForDisplay"))
  }

  /** `format_amount(amount, currency)`: the amount text, one space and the
      currency's `str()`. */
  function FormatAmount(amount: Value, currency: Value, env: Env): Result<string> {
    var text :- AmountText(amount, env);
    Ok(text + " " + PyStr(currency, env))
  }

  /** An int amount, negative or not, is written as the decimal text of
      the float it converts to, a point and two zeros; that text reads back
      as the float. */
  lemma FloatAmount(i: int, x: int, currency: string, env: Env)
    requires IntToFloat(i) == Some(x)
    ensures var r := FormatAmount(Int(i), Str(currency), env);
      && r.Ok?
      && r.value == IntToDecimal(x) + ".00 " + currency
      && ReadInt(IntToDecimal(x)) == Some(x)
  {
    var text := IntToDecimal(x);
    assert text + ".00" + " " + currency == text + ".00 " + currency;
    IntDecimalRoundTrip(x);
  }

  /** An int amount below 2^53 in magnitude (at most 53 binary digits),
      negative or not, is written as its own decimal text, a point and two
      zeros, and the text reads back as the amount. */
  lemma IntAmount(i: int, currency: string, env: Env)
    requires BitLength(if i < 0 then -i else i) <= Precision
    ensures var r := FormatAmount(Int(i), Str(currency), env);
      && r.Ok?
      && r.value == IntToDecimal(i) + ".00 " + currency
      && ReadInt(IntToDecimal(i)) == Some(i)
  {
    IntToFloatExact(i);
    FloatAmount(i, i, currency, env);
  }

  /** A refund of 50 written as the JSON integer -50. */
  lemma RefundAmount(env: Env)
    ensures FormatAmount(Int(-50), Str("ILS"), env) == Ok("-50.00 ILS")
  {
    assert BitLength(50) == 6;
    IntAmount(-50, "ILS", env);
    assert NatToDecimal(5) == "5" && Digit(0) == '0';
    assert NatToDecimal(50) == NatToDecimal(5) + [Digit(0)] == "50";
    assert IntToDecimal(-50) == "-50";
    assert "-50" + ".00 " + "ILS" == "-50.00 ILS";
  }

  /** An int with more than 1024 binary digits cannot be formatted. */
  lemma HugeIntAmount(i: int, currency: Value, env: Env)
    requires BitLength(if i < 0 then -i else i) > 1024
    ensures FormatAmount(Int(i), currency, env) == Err(BadValue("amountForDisplay"))
  {
    LargeIntOverflows(i);
  }

  /** `get_category_from_mcc(mcc)`: `table.get(mcc, Fallback)`. The table's
      keys are strings, so a code of any other hashable type is not found;
      a list or a dict is unhashable and raises. */
  function Category(mcc: Value, table: map<string, string>): (r: Result<string>)
    ensures r.Ok? <==> !(mcc.List? || mcc.Obj?)
    ensures r.Err? ==> r.error == BadValue("internationalBranchID")
    ensures mcc.Str? && mcc.s in table ==> r == Ok(table[mcc.s])
    ensures r.Ok? && !(mcc.Str? && mcc.s in table) ==> r == Ok(Fallback)
  {
    match mcc
    case Str(s) => Ok(if s in table then table[s] else Fallback)
    case List(_) => Err(BadValue("internationalBranchID"))
    case Obj(_) => Err(BadValue("internationalBranchID"))
    case _ => Ok(Fallback)
  }

  /** The code `convert_transaction` looks up: `internationalBranchID`,
      or "" when the record has no such key. */
  function MccOf(rec: Record): Value {
    if "internationalBranchID" in rec then rec["internationalBranchID"] else Str("")
  }

  /** A record without `internationalBranchID` is categorised as the code
      "": the table's entry for "" if it has one, else the fallback. */
  lemma AbsentMcc(rec: Record, table: map<string, string>)
    requires "internationalBranchID" !in rec
    ensures Category(MccOf(rec), table) == Ok(if "" in table then table[""] else Fallback)
  {
  }

  /** `datetime.fromisoformat(trans["trnPurchaseDate"]).strftime(...)`:
      a KeyError when absent, an error when it is not a string or does
      not parse. */
  function PurchaseDate(rec: Record, env: Env): (r: Result<string>)
    ensures "trnPurchaseDate" !in rec ==> r == Err(MissingField("trnPurchaseDate"))
    ensures r.Ok? <==> "trnPurchaseDate" in rec && DateUsable(rec, env)
    ensures r.Ok? ==> Some(r.value) == env.parseDate(rec["trnPurchaseDate"].s)
  {
    var v :- Require(rec, "trnPurchaseDate");
    if !v.Str? then Err(BadValue("trnPurchaseDate"))
    else
      match env.parseDate(v.s)
      case None => Err(BadValue("trnPurchaseDate"))
      case Some(date) => Ok(date)
  }

  /** The purchase date, when present, is a string that parses. */
  predicate DateUsable(rec: Record, env: Env) {
    "trnPurchaseDate" in rec ==>
      (var v := rec["trnPurchaseDate"]; v.Str? && env.parseDate(v.s).Some?)
  }

  /** `clean_string(trans["merchantName"])`: "" for any falsy value, the
      cleaned text of a string; a truthy non-string has no `strip`. */
  function MerchantName(v: Value): (r: Result<string>)
    ensures r.Ok? <==> !Truthy(v) || v.Str?
    ensures !Truthy(v) ==> r == Ok([])
    ensures Truthy(v) && v.Str? ==> r == Ok(CleanString(v.s))
    ensures r.Ok? ==> Normalized(r.value) && '\n' !in r.value
    ensures r.Err? ==> r.error == BadValue("merchantName")
  {
    if !Truthy(v) then Ok([])
    else if v.Str? then Ok(CleanString(v.s))
    else Err(BadValue("merchantName"))
  }

  /** The merchant name, when present, is falsy or a string. */
  predicate NameUsable(rec: Record) {
    "merchantName" in rec ==> (var v := rec["merchantName"]; !Truthy(v) || v.Str?)
  }

  /** The category code is hashable: not a list or a dict. */
  predicate MccUsable(rec: Record) {
    !(MccOf(rec).List? || MccOf(rec).Obj?)
  }

  /** The amount, when present, is a number, and an int one converts to
      a float. */
  predicate AmountUsable(rec: Record) {
    "amountForDisplay" in rec ==>
      (var a := rec["amountForDisplay"]; (a.Int? && IntToFloat(a.i).Some?) || a.Bool? || a.Num?)
  }

  /** `["    " + l for l in metadata]`. */
  function Indent(metadata: seq<string>): (r: seq<string>)
    ensures |r| == |metadata|
    ensures forall k :: 0 <= k < |r| ==> r[k] == Indentation + metadata[k]
  {
    seq(|metadata|, k requires 0 <= k < |metadata| => Indentation + metadata[k])
  }

  /** What `convert_transaction` computes before it lays out the entry. */
  datatype Fields = Fields(
    date: string, card: Value, name: string, category: string, amount: string, metadata: seq<string>)

  /** The reads of `convert_transaction(rec)`, in the code's order: date,
      card, merchant name, category, amount, currency, metadata. The first
      that fails is the error. */
  function ReadFields(rec: Record, env: Env): Result<Fields> {
    var date :- PurchaseDate(rec, env);
    var card :- Require(rec, "cardUniqueId");
    var nameValue :- Require(rec, "merchantName");
    var name :- MerchantName(nameValue);
    var category :- Category(MccOf(rec), env.categories);
    var amount :- Require(rec, "amountForDisplay");
    var currency :- Require(rec, "currencyForDisplay");
    var formatted :- FormatAmount(amount, currency, env);
    var metadata :- MetadataOf(rec, env);
    Ok(Fields(date, card, name, category, formatted, metadata))
  }

  /** The lines of an entry: header, indented metadata, two postings. */
  function Layout(f: Fields, env: Env): seq<string> {
    [f.date + " * " + f.name] + Indent(f.metadata)
    + [Indentation + f.category + "  " + f.amount]
    + [Indentation + CardAccount + PyStr(f.card, env)]
  }

  /** The lines of the entry `convert_transaction(rec)` builds. */
  function EntryLines(rec: Record, env: Env): Result<seq<string>> {
    var f :- ReadFields(rec, env);
    Ok(Layout(f, env))
  }

  /** `convert_transaction(rec)`: the lines joined by newlines. */
  function Entry(rec: Record, env: Env): Result<string> {
    var lines :- EntryLines(rec, env);
    Ok(Join(lines, "\n"))
  }

  /** `convert_transaction(trans)` on a parsed value: reading
      `trans["trnPurchaseDate"]` fails on anything but a dict. */
  function ConvertElement(trans: Value, env: Env): Result<string> {
    if trans.Obj? then Entry(ToRecord(trans.fields), env) else Err(BadValue("trnPurchaseDate"))
  }

  /** `convert_transaction`, statement by statement. */
  method ConvertTransaction(trans: Value, env: Env) returns (r: Result<string>)
    ensures r == ConvertElement(trans, env)
  {
    if !trans.Obj? {
      return Err(BadValue("trnPurchaseDate"));
    }
    var rec := ToRecord(trans.fields);
    var date :- PurchaseDate(rec, env);
    var card :- Require(rec, "cardUniqueId");
    var nameValue :- Require(rec, "merchantName");
    var name :- MerchantName(nameValue);
    var category :- Category(MccOf(rec), env.categories);
    var amount :- Require(rec, "amountForDisplay");
    var currency :- Require(rec, "currencyForDisplay");
    var formatted :- FormatAmount(amount, currency, env);
    var metadata :- FormatMetadata(rec, env);
    assert ReadFields(rec, env) == Ok(Fields(date, card, name, category, formatted, metadata));

    var lines := [date + " * " + name];
    lines := lines + Indent(metadata);
    lines := lines + [Indentation + category + "  " + formatted];
    lines := lines + [Indentation + CardAccount + PyStr(card, env)];
    assert lines == Layout(Fields(date, card, name, category, formatted, metadata), env);
    r := Ok(Join(lines, "\n"));
  }

  /** Where each part of the entry comes from. */
  lemma FieldsRead(rec: Record, env: Env)
    requires ReadFields(rec, env).Ok?
    ensures var f := ReadFields(rec, env).value;
      && PurchaseDate(rec, env) == Ok(f.date)
      && "cardUniqueId" in rec && f.card == rec["cardUniqueId"]
      && "merchantName" in rec && MerchantName(rec["merchantName"]) == Ok(f.name)
      && Category(MccOf(rec), env.categories) == Ok(f.category)
      && "amountForDisplay" in rec && "currencyForDisplay" in rec
      && FormatAmount(rec["amountForDisplay"], rec["currencyForDisplay"], env) == Ok(f.amount)
      && MetadataOf(rec, env).Ok? && MetadataOf(rec, env).value == f.metadata
  {
  }

  /** The layout of an entry: a header line, the metadata lines indented
      by four spaces, the expense posting and the card posting, so
      1 + |metadata| + 2 lines in all. */
  lemma EntryLayout(f: Fields, env: Env)
    ensures var lines := Layout(f, env);
      && |lines| == 1 + |f.metadata| + 2
      && lines[0] == f.date + " * " + f.name
      && (forall k :: 0 <= k < |f.metadata| ==> lines[1 + k] == "    " + f.metadata[k])
      && lines[|lines| - 2] == "    " + f.category + "  " + f.amount
      && lines[|lines| - 1] == "    Liabilities:CreditCard:Cal:" + PyStr(f.card, env)
  {
  }

  /** The header of an entry: the reformatted purchase date, " * " and
      the merchant name, cleaned, or "" when the name is falsy. */
  lemma EntryHeader(rec: Record, env: Env)
    requires EntryLines(rec, env).Ok?
    ensures "trnPurchaseDate" in rec && "merchantName" in rec
    ensures var d := rec["trnPurchaseDate"]; var name := rec["merchantName"];
      && d.Str? && env.parseDate(d.s).Some?
      && (Truthy(name) ==> name.Str?)
      && var lines := EntryLines(rec, env).value;
      && |lines| >= 1
      && lines[0] == env.parseDate(d.s).value + " * " + (if Truthy(name) then CleanString(name.s) else "")
  {
    FieldsRead(rec, env);
    EntryLayout(ReadFields(rec, env).value, env);
  }

  /** The postings of an entry. The expense account is the table's entry
      for the record's category code when the code is a string the table
      holds, and "Expense:Uncategorized" for any other code, an absent one
      being read as "". The amount is the `.2f` text of `amountForDisplay`
      and the currency's `str()`; the liability account ends in the card id. */
  lemma EntryPostings(rec: Record, env: Env)
    requires EntryLines(rec, env).Ok?
    ensures "amountForDisplay" in rec && "currencyForDisplay" in rec && "cardUniqueId" in rec
    ensures AmountText(rec["amountForDisplay"], env).Ok?
    ensures var code := if "internationalBranchID" in rec then rec["internationalBranchID"] else Str("");
      var account := if code.Str? && code.s in env.categories then env.categories[code.s] else Fallback;
      var lines := EntryLines(rec, env).value;
      && |lines| >= 3
      && lines[|lines| - 2] == "    " + account + "  " + AmountText(rec["amountForDisplay"], env).value
                              + " " + PyStr(rec["currencyForDisplay"], env)
      && lines[|lines| - 1] == "    Liabilities:CreditCard:Cal:" + PyStr(rec["cardUniqueId"], env)
  {
    var f := ReadFields(rec, env).value;
    FieldsRead(rec, env);
    EntryLayout(f, env);
    var amount := AmountText(rec["amountForDisplay"], env).value;
    assert f.amount == amount + " " + PyStr(rec["currencyForDisplay"], env);
    assert Indentation + f.category + "  " + f.amount
        == "    " + f.category + "  " + amount + " " + PyStr(rec["currencyForDisplay"], env);
  }

  /** Splitting an entry at its newlines gives back its lines, as long as
      no field rendered into a line holds a newline itself. */
  lemma EntrySplits(rec: Record, env: Env)
    requires EntryLines(rec, env).Ok?
    requires forall k :: 0 <= k < |EntryLines(rec, env).value| ==> '\n' !in EntryLines(rec, env).value[k]
    ensures Entry(rec, env).Ok?
    ensures Split(Entry(rec, env).value, '\n') == EntryLines(rec, env).value
  {
    SplitJoin(EntryLines(rec, env).value, '\n');
  }

  /** The keys `convert_transaction` reads with `trans[...]`, in order. */
  const RequiredKeys: seq<string> :=
    ["trnPurchaseDate", "cardUniqueId", "merchantName", "amountForDisplay", "currencyForDisplay"]

  lemma RequiredKeysAre()
    ensures |RequiredKeys| == 5
    ensures && RequiredKeys[0] == "trnPurchaseDate" && RequiredKeys[1] == "cardUniqueId"
            && RequiredKeys[2] == "merchantName" && RequiredKeys[3] == "amountForDisplay"
            && RequiredKeys[4] == "currencyForDisplay"
  {
  }

  /** A converted record has every required key. */
  lemma RequiredFields(rec: Record, env: Env)
    requires Entry(rec, env).Ok?
    ensures forall k :: 0 <= k < |RequiredKeys| ==> RequiredKeys[k] in rec
  {
  }

  /** When the k-th required key is the first one absent, and the values
      read before it are usable, conversion fails naming that key. */
  lemma FirstMissingField(rec: Record, env: Env, k: nat)
    requires k < |RequiredKeys|
    requires RequiredKeys[k] !in rec
    requires forall j :: 0 <= j < k ==> RequiredKeys[j] in rec
    requires k > 0 ==> DateUsable(rec, env)
    requires k > 2 ==> NameUsable(rec) && MccUsable(rec)
    ensures Entry(rec, env) == Err(MissingField(RequiredKeys[k]))
  {
    RequiredKeysAre();
    assert forall j :: 0 <= j < k ==> RequiredKeys[j] in rec;
    if k >= 1 {
      assert "trnPurchaseDate" in rec;
    }
    if k >= 2 {
      assert "cardUniqueId" in rec;
    }
    if k >= 3 {
      assert "merchantName" in rec;
    }
    if k >= 4 {
      assert "amountForDisplay" in rec;
    }
  }

  /** A missing-field error from conversion names an absent key: the
      first required key in read order that is absent, or `curPaymentNum`
      when all five are present. */
  lemma MissingFieldIsFirst(rec: Record, env: Env)
    requires Entry(rec, env).Err? && Entry(rec, env).error.MissingField?
    ensures var key := Entry(rec, env).error.key;
      && key !in rec
      && (|| key == "trnPurchaseDate"
          || (key == "cardUniqueId" && "trnPurchaseDate" in rec)
          || (key == "merchantName" && "trnPurchaseDate" in rec && "cardUniqueId" in rec)
          || (key == "amountForDisplay" && "trnPurchaseDate" in rec && "cardUniqueId" in rec
              && "merchantName" in rec)
          || (key == "currencyForDisplay" && "trnPurchaseDate" in rec && "cardUniqueId" in rec
              && "merchantName" in rec && "amountForDisplay" in rec)
          || (key == "curPaymentNum" && forall k :: 0 <= k < |RequiredKeys| ==> RequiredKeys[k] in rec))
  {
    if "trnPurchaseDate" in rec && "cardUniqueId" in rec && "merchantName" in rec
       && "amountForDisplay" in rec && "currencyForDisplay" in rec
    {
      MetadataMissingKey(rec, env);
      RequiredKeysAre();
    }
  }

  /** The reads of `convert_transaction` all succeed exactly when the five
      required keys are present, their values are usable and the metadata
      can be formatted. */
  lemma FieldsSucceed(rec: Record, env: Env)
    ensures ReadFields(rec, env).Ok? <==>
      && "trnPurchaseDate" in rec && "cardUniqueId" in rec && "merchantName" in rec
      && "amountForDisplay" in rec && "currencyForDisplay" in rec
      && DateUsable(rec, env) && NameUsable(rec) && MccUsable(rec) && AmountUsable(rec)
      && MetadataOf(rec, env).Ok?
  {
  }

  /** A record converts exactly when it has every required key, its values
      are usable and its metadata can be formatted. */
  lemma EntrySucceeds(rec: Record, env: Env)
    ensures Entry(rec, env).Ok? <==>
      && (forall k :: 0 <= k < |RequiredKeys| ==> RequiredKeys[k] in rec)
      && DateUsable(rec, env) && NameUsable(rec) && MccUsable(rec) && AmountUsable(rec)
      && AddressUsable(rec) && PaymentUsable(rec) && CommentsUsable(rec)
  {
    FieldsSucceed(rec, env);
    MetadataSucceeds(rec, env);
    assert Entry(rec, env).Ok? <==> ReadFields(rec, env).Ok?;
    var keys := RequiredKeys;
    RequiredKeysAre();
    assert (forall k :: 0 <= k < |keys| ==> keys[k] in rec) <==>
      && "trnPurchaseDate" in rec && "cardUniqueId" in rec && "merchantName" in rec
      && "amountForDisplay" in rec && "currencyForDisplay" in rec;
  }

  /** The per-element outcomes collected in order; the first failure is
      the outcome of the whole sequence. */
  function Collect<T>(rs: seq<Result<T>>): Result<seq<T>> {
    if rs == [] then Ok([])
    else
      var init :- Collect(rs[..|rs| - 1]);
      var last :- rs[|rs| - 1];
      Ok(init + [last])
  }

  /** The outcome of converting each element on its own. */
  function Outcomes(items: seq<Value>, env: Env): (r: seq<Result<string>>)
    ensures |r| == |items|
    ensures forall k :: 0 <= k < |items| ==> r[k] == ConvertElement(items[k], env)
  {
    seq(|items|, k requires 0 <= k < |items| => ConvertElement(items[k], env))
  }

  /** `"\n\n".join(...)` of the converted elements. */
  function LedgerText(items: seq<Value>, env: Env): Result<string> {
    var entries :- Collect(Outcomes(items, env));
    Ok(Join(entries, "\n\n"))
  }

  /** `data["result"]["transArr"]`, and the elements a for loop visits. */
  function TransactionArray(doc: Value): Result<seq<Value>> {
    var result :- Lookup(doc, "result");
    var transactions :- Lookup(result, "transArr");
    match Iterate(transactions)
    case None => Err(BadValue("transArr"))
    case Some(items) => Ok(items)
  }

  /** `convert_json_to_ledger` on the document `json.loads` returned. */
  function Document(doc: Value, env: Env): Result<string> {
    var items :- TransactionArray(doc);
    LedgerText(items, env)
  }

  /** `convert_json_to_ledger`: one entry per transaction, appended in
      order, then joined with blank lines. */
  method ConvertJsonToLedger(doc: Value, env: Env) returns (r: Result<string>)
    ensures r == Document(doc, env)
  {
    var transactions :- TransactionArray(doc);
    ghost var outcomes := Outcomes(transactions, env);
    var entries: seq<string> := [];
    for i := 0 to |transactions|
      invariant Collect(outcomes[..i]).Ok? && Collect(outcomes[..i]).value == entries
    {
      var entry := ConvertTransaction(transactions[i], env);
      CollectSnoc(outcomes, i);
      if entry.Err? {
        FailureStops(outcomes, i + 1);
        return Err(entry.error);
      }
      entries := entries + [entry.value];
    }
    assert outcomes[..|transactions|] == outcomes;
    r := Ok(Join(entries, "\n\n"));
  }

  /** One more element: its entry is appended, or its error is the result. */
  lemma CollectSnoc<T>(rs: seq<Result<T>>, i: nat)
    requires i < |rs|
    ensures var c := Collect(rs[..i + 1]);
      Collect(rs[..i]).Ok? ==>
        if rs[i].Ok? then c.Ok? && c.value == Collect(rs[..i]).value + [rs[i].value]
        else c == Err(rs[i].error)
  {
    assert rs[..i + 1][..i] == rs[..i];
  }

  /** Once a prefix fails, every longer prefix fails the same way. */
  lemma {:induction false} FailureStops<T>(rs: seq<Result<T>>, i: nat)
    requires i <= |rs|
    requires Collect(rs[..i]).Err?
    ensures Collect(rs) == Collect(rs[..i])
    decreases |rs| - i
  {
    if i < |rs| {
      assert rs[..i + 1][..i] == rs[..i];
      FailureStops(rs, i + 1);
    } else {
      assert rs[..i] == rs;
    }
  }

  /** The outcomes collect to a success exactly when each one succeeds. */
  lemma {:induction false} CollectOk<T>(rs: seq<Result<T>>)
    ensures Collect(rs).Ok? <==> forall k :: 0 <= k < |rs| ==> rs[k].Ok?
  {
    if rs != [] {
      var init := rs[..|rs| - 1];
      CollectOk(init);
      assert forall k :: 0 <= k < |init| ==> init[k] == rs[k];
    }
  }

  /** A success holds every value, in order. */
  lemma {:induction false} CollectValues<T>(rs: seq<Result<T>>)
    requires Collect(rs).Ok?
    ensures |Collect(rs).value| == |rs|
    ensures forall k :: 0 <= k < |rs| ==> rs[k].Ok? && Collect(rs).value[k] == rs[k].value
  {
    if rs != [] {
      var init := rs[..|rs| - 1];
      CollectValues(init);
      assert forall k :: 0 <= k < |init| ==> init[k] == rs[k];
    }
  }

  /** A failure is the error of the first failing outcome. */
  lemma {:induction false} CollectFirstError<T>(rs: seq<Result<T>>)
    requires Collect(rs).Err?
    ensures exists i :: 0 <= i < |rs|
              && (forall k :: 0 <= k < i ==> rs[k].Ok?)
              && rs[i].Err? && Collect(rs).error == rs[i].error
  {
    var init := rs[..|rs| - 1];
    assert forall k :: 0 <= k < |init| ==> init[k] == rs[k];
    if Collect(init).Err? {
      CollectFirstError(init);
      var i :| 0 <= i < |init| && (forall k :: 0 <= k < i ==> init[k].Ok?)
               && init[i].Err? && Collect(init).error == init[i].error;
      assert rs[i].Err?;
    } else {
      CollectOk(init);
    }
  }

  /** The ledger is produced exactly when every transaction converts; it is
      then the entries of the transactions, in input order, joined by
      blank lines. */
  lemma LedgerSucceeds(items: seq<Value>, env: Env)
    ensures LedgerText(items, env).Ok? <==> forall k :: 0 <= k < |items| ==> ConvertElement(items[k], env).Ok?
    ensures LedgerText(items, env).Ok? ==>
      exists entries: seq<string> ::
        && |entries| == |items|
        && (forall k :: 0 <= k < |items| ==> ConvertElement(items[k], env) == Ok(entries[k]))
        && LedgerText(items, env).value == Join(entries, "\n\n")
  {
    var rs := Outcomes(items, env);
    CollectOk(rs);
    if Collect(rs).Ok? {
      CollectValues(rs);
      var entries := Collect(rs).value;
      assert forall k :: 0 <= k < |items| ==> ConvertElement(items[k], env) == Ok(entries[k]);
    }
  }

  /** A failing transaction makes the whole conversion fail, with the error
      of the first transaction that fails, and no output at all. */
  lemma LedgerFirstError(items: seq<Value>, env: Env)
    requires LedgerText(items, env).Err?
    ensures exists i :: 0 <= i < |items|
              && (forall k :: 0 <= k < i ==> ConvertElement(items[k], env).Ok?)
              && ConvertElement(items[i], env).Err?
              && LedgerText(items, env).error == ConvertElement(items[i], env).error
  {
    CollectFirstError(Outcomes(items, env));
  }

  /** The document must be a dict with a `result` dict holding an iterable
      `transArr`. */
  lemma DocumentPath(doc: Value, env: Env)
    ensures !doc.Obj? ==> Document(doc, env) == Err(BadValue("result"))
    ensures doc.Obj? && "result" !in ToRecord(doc.fields) ==> Document(doc, env) == Err(MissingField("result"))
    ensures doc.Obj? && "result" in ToRecord(doc.fields) && ToRecord(doc.fields)["result"].Obj?
            && "transArr" !in ToRecord(ToRecord(doc.fields)["result"].fields)
            ==> Document(doc, env) == Err(MissingField("transArr"))
  {
  }
}
