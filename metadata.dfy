/** `format_metadata`: the `; ...` comment lines of a ledger entry.

    The function applies eleven rules in a fixed order, each appending zero
    or one line (the comment rule: one line per comment). The specification
    below tags each line with the rule that produced it (a `Label`); the
    text of a line always starts with its rule's `Prefix`, so the tag can be
    read off the text. */
module Metadata {
  import opened Values
  import opened Text

  datatype Label =
    | TransactionId | Address | Phone | MerchantId | CardPresent
    | TransactionType | Mcc | Payment | Foreign | Refund | Comment

  /** How many rules there are. */
  const RuleCount: nat := 11

  /** The position of a rule in `format_metadata`. */
  function Rank(l: Label): nat {
    match l
    case TransactionId => 0
    case Address => 1
    case Phone => 2
    case MerchantId => 3
    case CardPresent => 4
    case TransactionType => 5
    case Mcc => 6
    case Payment => 7
    case Foreign => 8
    case Refund => 9
    case Comment => 10
  }

  /** The rule at a position; the inverse of `Rank`. */
  function RuleAt(k: nat): Label
    requires k < RuleCount
  {
    if k == 0 then TransactionId
    else if k == 1 then Address
    else if k == 2 then Phone
    else if k == 3 then MerchantId
    else if k == 4 then CardPresent
    else if k == 5 then TransactionType
    else if k == 6 then Mcc
    else if k == 7 then Payment
    else if k == 8 then Foreign
    else if k == 9 then Refund
    else Comment
  }

  /** The record field a rule inspects. */
  function Key(l: Label): string {
    match l
    case TransactionId => "trnIntId"
    case Address => "merchantAddress"
    case Phone => "merchantPhoneNo"
    case MerchantId => "merchantId"
    case CardPresent => "transCardPresentInd"
    case TransactionType => "trnType"
    case Mcc => "internationalBranchID"
    case Payment => "numOfPayments"
    case Foreign => "isAbroadTransaction"
    case Refund => "refundInd"
    case Comment => "comments"
  }

  /** The fixed text every line of a rule starts with. */
  function Prefix(l: Label): (p: string)
    ensures "; " <= p
  {
    match l
    case TransactionId => "; Transaction ID: "
    case Address => "; Address: "
    case Phone => "; Phone: "
    case MerchantId => "; Merchant ID: "
    case CardPresent => "; Card Present: "
    case TransactionType => "; Transaction Type: "
    case Mcc => "; MCC: "
    case Payment => "; Payment "
    case Foreign => "; Foreign Transaction"
    case Refund => "; Refund"
    case Comment => "; Comment: "
  }

  /** The rules that print a field's `str()` after their prefix when the
      field is truthy. */
  predicate IsTextRule(l: Label) {
    l in {TransactionId, Phone, MerchantId, TransactionType, Mcc}
  }

  /** The rules that print their prefix alone when a flag is truthy. */
  predicate IsFlagRule(l: Label) {
    l == Foreign || l == Refund
  }

  /** A metadata line, tagged with the rule that produced it. */
  datatype Line = Line(rule: Label, text: string)

  /** The strings `format_metadata` returns. */
  function Texts(lines: seq<Line>): (r: seq<string>)
    ensures |r| == |lines|
    ensures forall k :: 0 <= k < |lines| ==> r[k] == lines[k].text
  {
    seq(|lines|, k requires 0 <= k < |lines| => lines[k].text)
  }

  /** `data["numOfPayments"] > 0` on a truthy value: a comparison of a
      number (a bool counts as 0 or 1) with zero; any other value raises. */
  function IsPositive(n: Value): Result<bool> {
    match n
    case Int(i) => Ok(i > 0)
    case Num(x) => Ok(x > 0.0)
    case Bool(b) => Ok(b)
    case _ => Err(BadValue(Key(Payment)))
  }

  /** The line for one element of `comments`: its whole `str()`, cleaned. */
  function CommentLine(item: Value, env: Env): Line {
    Line(Comment, Prefix(Comment) + CleanString(PyStr(item, env)))
  }

  /** Transaction ID, Phone, Merchant ID, Transaction Type, MCC: the
      prefix and the field's `str()`, when the field is truthy. */
  function TextRule(rec: Record, env: Env, l: Label): seq<Line> {
    var v := Get(rec, Key(l));
    if Truthy(v) then [Line(l, Prefix(l) + PyStr(v, env))] else []
  }

  /** Address: the cleaned address when it is truthy; `clean_string`
      raises on a truthy value that is not a string. */
  function AddressRule(rec: Record): Result<seq<Line>> {
    var v := Get(rec, Key(Address));
    if !Truthy(v) then Ok([])
    else if v.Str? then Ok([Line(Address, Prefix(Address) + CleanString(v.s))])
    else Err(BadValue(Key(Address)))
  }

  /** Card Present: a line whenever the field is not None (absent reads
      as None), "Yes" or "No" by truthiness. */
  function CardRule(rec: Record): seq<Line> {
    var v := Get(rec, Key(CardPresent));
    if v.Null? then []
    else [Line(CardPresent, Prefix(CardPresent) + (if Truthy(v) then "Yes" else "No"))]
  }

  /** Payment: when the count is truthy and positive, a line naming
      `curPaymentNum`, read without a presence check. */
  function PaymentRule(rec: Record, env: Env): Result<seq<Line>> {
    var v := Get(rec, Key(Payment));
    if !Truthy(v) then Ok([])
    else
      var positive :- IsPositive(v);
      if !positive then Ok([])
      else if "curPaymentNum" !in rec then Err(MissingField("curPaymentNum"))
      else Ok([Line(Payment, Prefix(Payment) + PyStr(rec["curPaymentNum"], env) + " of " + PyStr(v, env))])
  }

  /** Foreign Transaction, Refund: the bare marker when the flag is truthy. */
  function FlagRule(rec: Record, l: Label): seq<Line> {
    if Truthy(Get(rec, Key(l))) then [Line(l, Prefix(l))] else []
  }

  /** Comments: one line per element a for loop visits, when the field is
      truthy; a value a for loop cannot walk raises. */
  function CommentRule(rec: Record, env: Env): Result<seq<Line>> {
    var v := Get(rec, Key(Comment));
    if !Truthy(v) then Ok([])
    else
      match Iterate(v)
      case None => Err(BadValue(Key(Comment)))
      case Some(items) => Ok(seq(|items|, k requires 0 <= k < |items| => CommentLine(items[k], env)))
  }

  /** The lines one rule contributes, or the error it raises. */
  function RuleLines(rec: Record, env: Env, l: Label): Result<seq<Line>> {
    match l
    case Address => AddressRule(rec)
    case CardPresent => Ok(CardRule(rec))
    case Payment => PaymentRule(rec, env)
    case Foreign => Ok(FlagRule(rec, l))
    case Refund => Ok(FlagRule(rec, l))
    case Comment => CommentRule(rec, env)
    case _ => Ok(TextRule(rec, env, l))
  }

  /** The lines of the eleven rules, one segment per rule in rule order.
      Only the address, payment and comment rules can raise; the first of
      them that raises is the error of the whole computation. */
  function Segments(rec: Record, env: Env): Result<seq<seq<Line>>> {
    var address :- AddressRule(rec);
    var payment :- PaymentRule(rec, env);
    var comments :- CommentRule(rec, env);
    Ok([TextRule(rec, env, TransactionId), address, TextRule(rec, env, Phone),
        TextRule(rec, env, MerchantId), CardRule(rec), TextRule(rec, env, TransactionType),
        TextRule(rec, env, Mcc), payment, FlagRule(rec, Foreign), FlagRule(rec, Refund), comments])
  }

  /** The segments one after the other. */
  function Flatten(segs: seq<seq<Line>>): seq<Line> {
    if segs == [] then [] else Flatten(segs[..|segs| - 1]) + segs[|segs| - 1]
  }

  /** All the tagged lines of `format_metadata(rec)`. */
  function MetadataLines(rec: Record, env: Env): Result<seq<Line>> {
    var segs :- Segments(rec, env);
    Ok(Flatten(segs))
  }

  /** `format_metadata(rec)`. */
  function MetadataOf(rec: Record, env: Env): Result<seq<string>> {
    var lines :- MetadataLines(rec, env);
    Ok(Texts(lines))
  }

  /** `format_metadata`: the groups of appends in source order, each
      extending the same list; a group that raises ends the call. */
  method FormatMetadata(rec: Record, env: Env) returns (r: Result<seq<string>>)
    ensures r == MetadataOf(rec, env)
  {
    var metadata: seq<string> := [];
    metadata := AddEssentialDetails(rec, env, metadata);
    r := AddMerchantInfo(rec, env, metadata);
    if r.Err? {
      return;
    }
    metadata := AddTransactionDetails(rec, env, r.value);
    r := AddPaymentInfo(rec, env, metadata);
    if r.Err? {
      return;
    }
    metadata := AddFlags(rec, r.value);
    r := AddComments(rec, env, metadata);
    if r.Ok? {
      MetadataTexts(rec, env);
    }
  }

  /** "Essential transaction details": the transaction ID. */
  method AddEssentialDetails(rec: Record, env: Env, metadata: seq<string>) returns (m: seq<string>)
    ensures m == metadata + Texts(TextRule(rec, env, TransactionId))
  {
    m := metadata;
    var id := Get(rec, "trnIntId");
    if Truthy(id) {
      m := m + ["; Transaction ID: " + PyStr(id, env)];
    }
  }

  /** "Merchant information": address, phone and merchant ID; a truthy
      address that is not a string raises in `clean_string`. */
  method AddMerchantInfo(rec: Record, env: Env, metadata: seq<string>) returns (r: Result<seq<string>>)
    ensures AddressRule(rec).Err? ==> r == Err(AddressRule(rec).error)
    ensures AddressRule(rec).Ok? ==>
              r.Ok? && r.value == (metadata + Texts(AddressRule(rec).value) + Texts(TextRule(rec, env, Phone))
                      + Texts(TextRule(rec, env, MerchantId)))
  {
    var m := metadata;
    var address := Get(rec, "merchantAddress");
    if Truthy(address) {
      if !address.Str? {
        return Err(BadValue("merchantAddress"));
      }
      m := m + ["; Address: " + CleanString(address.s)];
    }
    assert m == metadata + Texts(AddressRule(rec).value);
    var phone := Get(rec, "merchantPhoneNo");
    if Truthy(phone) {
      m := m + ["; Phone: " + PyStr(phone, env)];
    }
    assert m == metadata + Texts(AddressRule(rec).value) + Texts(TextRule(rec, env, Phone));
    var merchant := Get(rec, "merchantId");
    if Truthy(merchant) {
      m := m + ["; Merchant ID: " + PyStr(merchant, env)];
    }
    r := Ok(m);
  }

  /** "Transaction details": card present, transaction type and MCC. */
  method AddTransactionDetails(rec: Record, env: Env, metadata: seq<string>) returns (m: seq<string>)
    ensures m == metadata + Texts(CardRule(rec)) + Texts(TextRule(rec, env, TransactionType))
                 + Texts(TextRule(rec, env, Mcc))
  {
    m := metadata;
    var present := Get(rec, "transCardPresentInd");
    if !present.Null? {
      m := m + ["; Card Present: " + (if Truthy(present) then "Yes" else "No")];
    }
    assert m == metadata + Texts(CardRule(rec));
    var kind := Get(rec, "trnType");
    if Truthy(kind) {
      m := m + ["; Transaction Type: " + PyStr(kind, env)];
    }
    assert m == metadata + Texts(CardRule(rec)) + Texts(TextRule(rec, env, TransactionType));
    var mcc := Get(rec, "internationalBranchID");
    if Truthy(mcc) {
      m := m + ["; MCC: " + PyStr(mcc, env)];
    }
  }

  /** "Payment information": the comparison with zero raises on a value
      that is not a number, and `curPaymentNum` is read unguarded. */
  method AddPaymentInfo(rec: Record, env: Env, metadata: seq<string>) returns (r: Result<seq<string>>)
    ensures PaymentRule(rec, env).Err? ==> r == Err(PaymentRule(rec, env).error)
    ensures PaymentRule(rec, env).Ok? ==> r.Ok? && r.value == metadata + Texts(PaymentRule(rec, env).value)
  {
    var payments := Get(rec, "numOfPayments");
    if Truthy(payments) {
      var positive := IsPositive(payments);
      if positive.Err? {
        return Err(positive.error);
      }
      if positive.value {
        if "curPaymentNum" !in rec {
          return Err(MissingField("curPaymentNum"));
        }
        return Ok(metadata + ["; Payment " + PyStr(rec["curPaymentNum"], env) + " of " + PyStr(payments, env)]);
      }
    }
    r := Ok(metadata);
  }

  /** "Additional flags": foreign transaction and refund. */
  method AddFlags(rec: Record, metadata: seq<string>) returns (m: seq<string>)
    ensures m == metadata + Texts(FlagRule(rec, Foreign)) + Texts(FlagRule(rec, Refund))
  {
    m := metadata;
    if Truthy(Get(rec, "isAbroadTransaction")) {
      m := m + ["; Foreign Transaction"];
    }
    assert m == metadata + Texts(FlagRule(rec, Foreign));
    if Truthy(Get(rec, "refundInd")) {
      m := m + ["; Refund"];
    }
  }

  /** "Comments": one line per element the for loop visits. */
  method AddComments(rec: Record, env: Env, metadata: seq<string>) returns (r: Result<seq<string>>)
    ensures CommentRule(rec, env).Err? ==> r == Err(CommentRule(rec, env).error)
    ensures CommentRule(rec, env).Ok? ==> r.Ok? && r.value == metadata + Texts(CommentRule(rec, env).value)
  {
    var comments := Get(rec, "comments");
    if !Truthy(comments) {
      return Ok(metadata);
    }
    var elements := Iterate(comments);
    if elements.None? {
      return Err(BadValue("comments"));
    }
    var items := elements.value;
    var m := metadata;
    ghost var done: seq<Line> := [];
    for k := 0 to |items|
      invariant |done| == k
      invariant forall j :: 0 <= j < k ==> done[j] == CommentLine(items[j], env)
      invariant m == metadata + Texts(done)
    {
      var text := "; Comment: " + CleanString(PyStr(items[k], env));
      TextsConcat(done, [Line(Comment, text)]);
      m, done := m + [text], done + [Line(Comment, text)];
    }
    assert done == CommentRule(rec, env).value;
    r := Ok(m);
  }

  lemma TextsConcat(a: seq<Line>, b: seq<Line>)
    ensures Texts(a + b) == Texts(a) + Texts(b)
  {
  }

  lemma {:induction false} FlattenSnoc(segs: seq<seq<Line>>, seg: seq<Line>)
    ensures Flatten(segs + [seg]) == Flatten(segs) + seg
  {
    assert (segs + [seg])[..|segs|] == segs;
  }

  lemma FlattenStep(s: seq<seq<Line>>, k: nat)
    requires k < |s|
    ensures Texts(Flatten(s[..k + 1])) == Texts(Flatten(s[..k])) + Texts(s[k])
  {
    assert s[..k + 1][..k] == s[..k];
    TextsConcat(Flatten(s[..k]), s[k]);
  }

  /** The texts of the first k segments, one after the other. */
  ghost function TextsUpTo(s: seq<seq<Line>>, k: nat): seq<string>
    requires k <= |s|
  {
    if k == 0 then [] else TextsUpTo(s, k - 1) + Texts(s[k - 1])
  }

  lemma {:induction false} TextsFlatten(s: seq<seq<Line>>, k: nat)
    requires k <= |s|
    ensures Texts(Flatten(s[..k])) == TextsUpTo(s, k)
  {
    if k == 0 {
      assert s[..0] == [];
    } else {
      TextsFlatten(s, k - 1);
      FlattenStep(s, k - 1);
      assert TextsUpTo(s, k) == TextsUpTo(s, k - 1) + Texts(s[k - 1]);
    }
  }

  /** The texts of eleven segments laid end to end. */
  lemma TextsFlattenEleven(s: seq<seq<Line>>)
    requires |s| == 11
    ensures Texts(Flatten(s)) == [] + Texts(s[0]) + Texts(s[1]) + Texts(s[2]) + Texts(s[3])
                                 + Texts(s[4]) + Texts(s[5]) + Texts(s[6]) + Texts(s[7])
                                 + Texts(s[8]) + Texts(s[9]) + Texts(s[10])
  {
    assert s[..11] == s;
    TextsFlatten(s, 11);
    assert TextsUpTo(s, 1) == [] + Texts(s[0]);
    assert TextsUpTo(s, 2) == TextsUpTo(s, 1) + Texts(s[1]);
    assert TextsUpTo(s, 3) == TextsUpTo(s, 2) + Texts(s[2]);
    assert TextsUpTo(s, 4) == TextsUpTo(s, 3) + Texts(s[3]);
    assert TextsUpTo(s, 5) == TextsUpTo(s, 4) + Texts(s[4]);
    assert TextsUpTo(s, 6) == TextsUpTo(s, 5) + Texts(s[5]);
    assert TextsUpTo(s, 7) == TextsUpTo(s, 6) + Texts(s[6]);
    assert TextsUpTo(s, 8) == TextsUpTo(s, 7) + Texts(s[7]);
    assert TextsUpTo(s, 9) == TextsUpTo(s, 8) + Texts(s[8]);
    assert TextsUpTo(s, 10) == TextsUpTo(s, 9) + Texts(s[9]);
    assert TextsUpTo(s, 11) == TextsUpTo(s, 10) + Texts(s[10]);
  }

  /** The texts of the metadata lines are the texts of the segments, one
      after the other, as the groups of `FormatMetadata` append them. */
  lemma MetadataTexts(rec: Record, env: Env)
    requires Segments(rec, env).Ok?
    ensures var s := Segments(rec, env).value;
      MetadataOf(rec, env) == Ok([] + Texts(s[0]) + Texts(s[1]) + Texts(s[2]) + Texts(s[3])
                               + Texts(s[4]) + Texts(s[5]) + Texts(s[6]) + Texts(s[7])
                               + Texts(s[8]) + Texts(s[9]) + Texts(s[10]))
  {
    TextsFlattenEleven(Segments(rec, env).value);
  }

  lemma RankOfRuleAt(k: nat)
    requires k < RuleCount
    ensures Rank(RuleAt(k)) == k
  {
  }

  lemma RuleAtRank(l: Label)
    ensures Rank(l) < RuleCount && RuleAt(Rank(l)) == l
  {
    match l
    case TransactionId =>
    case Address =>
    case Phone =>
    case MerchantId =>
    case CardPresent =>
    case TransactionType =>
    case Mcc =>
    case Payment =>
    case Foreign =>
    case Refund =>
    case Comment =>
  }

  /** Every line of ls carries label l. */
  predicate Uniform(ls: seq<Line>, l: Label) {
    forall k :: 0 <= k < |ls| ==> ls[k].rule == l
  }

  /** Every line starts with its rule's prefix. */
  predicate Marked(ls: seq<Line>) {
    forall k :: 0 <= k < |ls| ==> Prefix(ls[k].rule) <= ls[k].text
  }

  /** A line that starts with its rule's prefix starts with "; ". */
  lemma MarkedOpens(ls: seq<Line>)
    requires Marked(ls)
    ensures forall k :: 0 <= k < |ls| ==> "; " <= ls[k].text
  {
    forall k | 0 <= k < |ls|
      ensures "; " <= ls[k].text
    {
      var p := Prefix(ls[k].rule);
      assert ls[k].text[..2] == p[..2] == "; ";
    }
  }

  lemma PrefixOf(p: string, x: string)
    ensures p <= p + x
  {
    assert (p + x)[..|p|] == p;
  }

  /** No line, or one line of rule l that starts with l's prefix. */
  lemma SingleShape(ls: seq<Line>, l: Label)
    requires ls == [] || (|ls| == 1 && ls[0].rule == l && Prefix(l) <= ls[0].text)
    ensures Uniform(ls, l) && Marked(ls) && |ls| <= 1
  {
  }

  /** What each rule contributes: lines of its own label, with its prefix,
      and at most one of them unless it is the comment rule. */
  lemma RuleShape(rec: Record, env: Env, l: Label)
    requires RuleLines(rec, env, l).Ok?
    ensures var ls := RuleLines(rec, env, l).value;
      Uniform(ls, l) && Marked(ls) && (|ls| <= 1 || l == Comment)
  {
    match l
    case Address => AddressShape(rec);
    case CardPresent => CardShape(rec);
    case Payment => PaymentShape(rec, env);
    case Foreign => FlagShape(rec, l);
    case Refund => FlagShape(rec, l);
    case Comment => CommentShape(rec, env);
    case _ => TextShape(rec, env, l);
  }

  lemma TextShape(rec: Record, env: Env, l: Label)
    ensures var ls := TextRule(rec, env, l); Uniform(ls, l) && Marked(ls) && |ls| <= 1
  {
    PrefixOf(Prefix(l), PyStr(Get(rec, Key(l)), env));
    SingleShape(TextRule(rec, env, l), l);
  }

  lemma AddressShape(rec: Record)
    requires AddressRule(rec).Ok?
    ensures var ls := AddressRule(rec).value; Uniform(ls, Address) && Marked(ls) && |ls| <= 1
  {
    var v := Get(rec, Key(Address));
    if v.Str? {
      PrefixOf(Prefix(Address), CleanString(v.s));
    }
    SingleShape(AddressRule(rec).value, Address);
  }

  lemma CardShape(rec: Record)
    ensures var ls := CardRule(rec); Uniform(ls, CardPresent) && Marked(ls) && |ls| <= 1
  {
    PrefixOf(Prefix(CardPresent), if Truthy(Get(rec, Key(CardPresent))) then "Yes" else "No");
    SingleShape(CardRule(rec), CardPresent);
  }

  lemma PaymentShape(rec: Record, env: Env)
    requires PaymentRule(rec, env).Ok?
    ensures var ls := PaymentRule(rec, env).value; Uniform(ls, Payment) && Marked(ls) && |ls| <= 1
  {
    if "curPaymentNum" in rec {
      var v := Get(rec, Key(Payment));
      var x := PyStr(rec["curPaymentNum"], env);
      PrefixOf(Prefix(Payment), x + " of " + PyStr(v, env));
      assert Prefix(Payment) + x + " of " + PyStr(v, env) == Prefix(Payment) + (x + " of " + PyStr(v, env));
    }
    SingleShape(PaymentRule(rec, env).value, Payment);
  }

  lemma FlagShape(rec: Record, l: Label)
    ensures var ls := FlagRule(rec, l); Uniform(ls, l) && Marked(ls) && |ls| <= 1
  {
    SingleShape(FlagRule(rec, l), l);
  }

  lemma CommentShape(rec: Record, env: Env)
    requires CommentRule(rec, env).Ok?
    ensures var ls := CommentRule(rec, env).value; Uniform(ls, Comment) && Marked(ls)
  {
    var ls := CommentRule(rec, env).value;
    forall k | 0 <= k < |ls|
      ensures ls[k].rule == Comment && Prefix(Comment) <= ls[k].text
    {
      PrefixOf(Prefix(Comment), CleanString(PyStr(Iterate(Get(rec, Key(Comment))).value[k], env)));
    }
  }

  lemma SegmentsValue(rec: Record, env: Env)
    requires Segments(rec, env).Ok?
    ensures AddressRule(rec).Ok? && PaymentRule(rec, env).Ok? && CommentRule(rec, env).Ok?
    ensures Segments(rec, env).value
      == [TextRule(rec, env, TransactionId), AddressRule(rec).value, TextRule(rec, env, Phone),
          TextRule(rec, env, MerchantId), CardRule(rec), TextRule(rec, env, TransactionType),
          TextRule(rec, env, Mcc), PaymentRule(rec, env).value, FlagRule(rec, Foreign),
          FlagRule(rec, Refund), CommentRule(rec, env).value]
  {
  }

  /** The segment of rule l is what l produces on its own. */
  lemma SegmentOf(rec: Record, env: Env, l: Label)
    requires Segments(rec, env).Ok?
    ensures |Segments(rec, env).value| == RuleCount
    ensures RuleLines(rec, env, l).Ok? && RuleLines(rec, env, l).value == Segments(rec, env).value[Rank(l)]
  {
    SegmentsValue(rec, env);
    match l
    case TransactionId =>
    case Address =>
    case Phone =>
    case MerchantId =>
    case CardPresent =>
    case TransactionType =>
    case Mcc =>
    case Payment =>
    case Foreign =>
    case Refund =>
    case Comment =>
  }

  /** The segments of `Segments` as the ordering lemmas need them: segment
      k holds lines of rule k only, each with its prefix, and at most one
      line unless k is the comment rule. */
  ghost predicate Shaped(s: seq<seq<Line>>) {
    && |s| == RuleCount
    && forall k :: 0 <= k < |s| ==>
         && Uniform(s[k], RuleAt(k))
         && Marked(s[k])
         && (|s[k]| <= 1 || RuleAt(k) == Comment)
  }

  lemma SegmentsShaped(rec: Record, env: Env)
    requires Segments(rec, env).Ok?
    ensures Shaped(Segments(rec, env).value)
  {
    var s := Segments(rec, env).value;
    forall k | 0 <= k < |s|
      ensures Uniform(s[k], RuleAt(k)) && Marked(s[k]) && (|s[k]| <= 1 || RuleAt(k) == Comment)
    {
      RankOfRuleAt(k);
      SegmentOf(rec, env, RuleAt(k));
      RuleShape(rec, env, RuleAt(k));
    }
  }

  /** Lines appear in rule order; two lines share a rule only if both are
      comments. */
  ghost predicate Ordered(ls: seq<Line>) {
    forall i, j :: 0 <= i < j < |ls| ==>
      Rank(ls[i].rule) < Rank(ls[j].rule) || (ls[i].rule == Comment && ls[j].rule == Comment)
  }

  /** The lines ls, with a rank bound on their rules. */
  ghost predicate Staged(ls: seq<Line>, n: nat) {
    && Ordered(ls)
    && Marked(ls)
    && forall k :: 0 <= k < |ls| ==> Rank(ls[k].rule) < n
  }

  lemma Extend(ls: seq<Line>, seg: seq<Line>, l: Label)
    requires Staged(ls, Rank(l))
    requires Uniform(seg, l) && Marked(seg) && (|seg| <= 1 || l == Comment)
    ensures Staged(ls + seg, Rank(l) + 1)
  {
    var all := ls + seg;
    forall i, j | 0 <= i < j < |all|
      ensures Rank(all[i].rule) < Rank(all[j].rule) || (all[i].rule == Comment && all[j].rule == Comment)
    {
      if j < |ls| {
        assert all[i] == ls[i] && all[j] == ls[j];
      } else if i < |ls| {
        assert all[i] == ls[i] && all[j] == seg[j - |ls|];
      } else {
        assert all[i] == seg[i - |ls|] && all[j] == seg[j - |ls|];
      }
    }
  }

  lemma {:induction false} FlattenStaged(s: seq<seq<Line>>, n: nat)
    requires Shaped(s) && n <= |s|
    ensures Staged(Flatten(s[..n]), n)
  {
    if n == 0 {
      assert s[..0] == [];
    } else {
      FlattenStaged(s, n - 1);
      assert s[..n][..n - 1] == s[..n - 1];
      RankOfRuleAt(n - 1);
      Extend(Flatten(s[..n - 1]), s[n - 1], RuleAt(n - 1));
    }
  }

  /** The metadata lines follow the fixed rule order (Transaction ID,
      Address, Phone, Merchant ID, Card Present, Transaction Type, MCC,
      Payment, Foreign Transaction, Refund, comments); only comment lines
      repeat; every line starts with "; " and with its rule's prefix. */
  lemma MetadataOrdered(rec: Record, env: Env)
    requires MetadataLines(rec, env).Ok?
    ensures Ordered(MetadataLines(rec, env).value)
    ensures Marked(MetadataLines(rec, env).value)
  {
    var s := Segments(rec, env).value;
    SegmentsShaped(rec, env);
    FlattenStaged(s, RuleCount);
    assert s[..RuleCount] == s;
  }

  /** Every string `format_metadata` returns is a ledger comment: it
      starts with "; ". */
  lemma EveryLineIsComment(rec: Record, env: Env)
    requires MetadataOf(rec, env).Ok?
    ensures forall k :: 0 <= k < |MetadataOf(rec, env).value| ==> "; " <= MetadataOf(rec, env).value[k]
  {
    MetadataOrdered(rec, env);
    MarkedOpens(MetadataLines(rec, env).value);
  }

  /** The rule whose prefix opens text: the prefixes tried in rule order,
      from position k on. */
  function FirstMatch(text: string, k: nat): (r: Option<Label>)
    requires k <= RuleCount
    ensures r.Some? ==> Prefix(r.value) <= text
    ensures r.None? ==> forall j :: k <= j < RuleCount ==> !(Prefix(RuleAt(j)) <= text)
    decreases RuleCount - k
  {
    if k == RuleCount then None
    else if Prefix(RuleAt(k)) <= text then Some(RuleAt(k))
    else FirstMatch(text, k + 1)
  }

  /** Reading a metadata line's tag back from its text. */
  function LabelOf(text: string): Option<Label> {
    FirstMatch(text, 0)
  }

  /** No rule's prefix extends another's, so a text starts with at most one
      of them. */
  lemma PrefixDistinct(l: Label, m: Label)
    requires Prefix(l) <= Prefix(m)
    ensures l == m
  {
    var p, q := Prefix(l), Prefix(m);
    assert q[..|p|] == p;
    match m
    case TransactionId => assert q[2] == 'T' && q[14] == 'I';
    case TransactionType => assert q[2] == 'T' && q[14] == 'T';
    case Phone => assert q[2] == 'P' && q[3] == 'h';
    case Payment => assert q[2] == 'P' && q[3] == 'a';
    case MerchantId => assert q[2] == 'M' && q[3] == 'e';
    case Mcc => assert q[2] == 'M' && q[3] == 'C';
    case CardPresent => assert q[2] == 'C' && q[3] == 'a';
    case Comment => assert q[2] == 'C' && q[3] == 'o';
    case Address => assert q[2] == 'A';
    case Foreign => assert q[2] == 'F';
    case Refund => assert q[2] == 'R';
  }

  /** A text that starts with l's prefix reads back as l. */
  lemma ReadLabel(l: Label, text: string)
    requires Prefix(l) <= text
    ensures LabelOf(text) == Some(l)
  {
    RuleAtRank(l);
    var m := LabelOf(text).value;
    var p, q := Prefix(l), Prefix(m);
    assert p == text[..|p|] && q == text[..|q|];
    if |q| <= |p| {
      assert p[..|q|] == q;
      PrefixDistinct(m, l);
    } else {
      assert q[..|p|] == p;
      PrefixDistinct(l, m);
    }
  }

  /** The tag of every line `format_metadata` returns can be read off its
      text: reading each string back gives the rules in the order they
      fired. */
  lemma TagsReadable(rec: Record, env: Env)
    requires MetadataLines(rec, env).Ok?
    ensures |MetadataOf(rec, env).value| == |MetadataLines(rec, env).value|
    ensures forall k :: 0 <= k < |MetadataOf(rec, env).value| ==>
      LabelOf(MetadataOf(rec, env).value[k]) == Some(MetadataLines(rec, env).value[k].rule)
  {
    var ls := MetadataLines(rec, env).value;
    MetadataOrdered(rec, env);
    forall k | 0 <= k < |ls|
      ensures LabelOf(Texts(ls)[k]) == Some(ls[k].rule)
    {
      ReadLabel(ls[k].rule, ls[k].text);
    }
  }

  /** The lines of ls that carry label l, in order. */
  function Select(ls: seq<Line>, l: Label): seq<Line> {
    if ls == [] then []
    else if ls[0].rule == l then [ls[0]] + Select(ls[1..], l)
    else Select(ls[1..], l)
  }

  lemma {:induction false} SelectConcat(a: seq<Line>, b: seq<Line>, l: Label)
    ensures Select(a + b, l) == Select(a, l) + Select(b, l)
  {
    if a == [] {
      assert a + b == b;
    } else {
      assert (a + b)[0] == a[0];
      assert (a + b)[1..] == a[1..] + b;
      SelectConcat(a[1..], b, l);
      if a[0].rule == l {
        assert [a[0]] + (Select(a[1..], l) + Select(b, l)) == [a[0]] + Select(a[1..], l) + Select(b, l);
      }
    }
  }

  lemma {:induction false} SelectUniform(ls: seq<Line>, m: Label, l: Label)
    requires Uniform(ls, m)
    ensures Select(ls, l) == if l == m then ls else []
  {
    if ls != [] {
      SelectUniform(ls[1..], m, l);
      assert ls == [ls[0]] + ls[1..];
    }
  }

  lemma {:induction false} FlattenSelect(s: seq<seq<Line>>, n: nat, l: Label)
    requires n <= |s| <= RuleCount
    requires forall k :: 0 <= k < |s| ==> Uniform(s[k], RuleAt(k))
    ensures Select(Flatten(s[..n]), l) == if Rank(l) < n then s[Rank(l)] else []
  {
    if n == 0 {
      assert s[..0] == [];
    } else {
      var m := RuleAt(n - 1);
      var before := Flatten(s[..n - 1]);
      FlattenSelect(s, n - 1, l);
      assert s[..n][..n - 1] == s[..n - 1];
      assert Flatten(s[..n]) == before + s[n - 1];
      SelectConcat(before, s[n - 1], l);
      SelectUniform(s[n - 1], m, l);
      RankOfRuleAt(n - 1);
      RuleAtRank(l);
      if Rank(l) < n - 1 {
        assert l != m;
        assert s[Rank(l)] + [] == s[Rank(l)];
      } else if Rank(l) == n - 1 {
        assert l == m;
        assert [] + s[n - 1] == s[n - 1];
      } else {
        assert l != m;
      }
    }
  }

  /** The lines of each rule in the output are exactly the lines that rule
      produces on its own: no rule's line is lost or taken by another. */
  lemma MetadataSelect(rec: Record, env: Env, l: Label)
    requires MetadataLines(rec, env).Ok?
    ensures RuleLines(rec, env, l).Ok?
    ensures Select(MetadataLines(rec, env).value, l) == RuleLines(rec, env, l).value
  {
    var s := Segments(rec, env).value;
    SegmentsShaped(rec, env);
    FlattenSelect(s, RuleCount, l);
    assert s[..RuleCount] == s;
    RuleAtRank(l);
    SegmentOf(rec, env, l);
  }
  /** Each rule but the comment rule contributes at most one line. */
  lemma AtMostOnce(rec: Record, env: Env, l: Label)
    requires MetadataLines(rec, env).Ok?
    requires l != Comment
    ensures |Select(MetadataLines(rec, env).value, l)| <= 1
  {
    MetadataSelect(rec, env, l);
    RuleShape(rec, env, l);
  }

  /** Transaction ID, Phone, Merchant ID, Transaction Type and MCC: one
      line `prefix + str(value)` exactly when the field is truthy, so an
      empty string or a zero gives no line. */
  lemma TextRuleLines(rec: Record, env: Env, l: Label)
    requires MetadataLines(rec, env).Ok?
    requires IsTextRule(l)
    ensures var v := Get(rec, Key(l));
      Select(MetadataLines(rec, env).value, l)
        == if Truthy(v) then [Line(l, Prefix(l) + PyStr(v, env))] else []
  {
    MetadataSelect(rec, env, l);
  }

  /** Address: one line with the cleaned address exactly when it is truthy. */
  lemma AddressRuleLines(rec: Record, env: Env)
    requires MetadataLines(rec, env).Ok?
    ensures var v := Get(rec, "merchantAddress");
      && (Truthy(v) ==> v.Str?)
      && Select(MetadataLines(rec, env).value, Address)
           == if Truthy(v) then [Line(Address, "; Address: " + CleanString(v.s))] else []
  {
    MetadataSelect(rec, env, Address);
  }

  /** Card Present: one line exactly when the field is present and not
      None, reading "Yes" for a truthy value and "No" otherwise, so an
      explicit False still gives a line. */
  lemma CardPresentRuleLines(rec: Record, env: Env)
    requires MetadataLines(rec, env).Ok?
    ensures var v := Get(rec, "transCardPresentInd");
      Select(MetadataLines(rec, env).value, CardPresent)
        == if "transCardPresentInd" in rec && !rec["transCardPresentInd"].Null?
           then [Line(CardPresent, "; Card Present: " + (if Truthy(v) then "Yes" else "No"))]
           else []
  {
    MetadataSelect(rec, env, CardPresent);
  }

  /** `numOfPayments` is truthy and greater than zero. */
  predicate PaymentDue(rec: Record) {
    var n := Get(rec, "numOfPayments");
    || (n.Int? && n.i > 0)
    || (n.Num? && n.x > 0.0)
    || n == Bool(true)
  }

  /** Payment: one line "Payment X of Y" exactly when `numOfPayments` is
      positive; X is `curPaymentNum`, which is then always present. */
  lemma PaymentRuleLines(rec: Record, env: Env)
    requires MetadataLines(rec, env).Ok?
    ensures PaymentDue(rec) ==> "curPaymentNum" in rec
    ensures Select(MetadataLines(rec, env).value, Payment)
        == if PaymentDue(rec)
           then [Line(Payment, "; Payment " + PyStr(rec["curPaymentNum"], env) + " of "
                                + PyStr(rec["numOfPayments"], env))]
           else []
  {
    MetadataSelect(rec, env, Payment);
  }

  /** Foreign Transaction and Refund: the bare marker exactly when the flag
      is truthy. */
  lemma FlagRuleLines(rec: Record, env: Env, l: Label)
    requires MetadataLines(rec, env).Ok?
    requires IsFlagRule(l)
    ensures Select(MetadataLines(rec, env).value, l)
        == if Truthy(Get(rec, Key(l))) then [Line(l, Prefix(l))] else []
  {
    MetadataSelect(rec, env, l);
  }

  /** Comments: for a truthy `comments`, one line per element it iterates
      over, in order, each holding the cleaned `str()` of the whole
      element; no comment lines otherwise. */
  lemma CommentRuleLines(rec: Record, env: Env)
    requires MetadataLines(rec, env).Ok?
    ensures var c := Get(rec, "comments");
      && (Truthy(c) ==> Iterate(c).Some?)
      && var comments := Select(MetadataLines(rec, env).value, Comment);
      && (!Truthy(c) ==> comments == [])
      && (Truthy(c) ==>
            && |comments| == |Iterate(c).value|
            && forall k :: 0 <= k < |comments| ==>
                 comments[k].text == "; Comment: " + CleanString(PyStr(Iterate(c).value[k], env)))
  {
    MetadataSelect(rec, env, Comment);
  }

  /** The address value is usable: falsy, or a string. */
  predicate AddressUsable(rec: Record) {
    var v := Get(rec, "merchantAddress");
    !Truthy(v) || v.Str?
  }

  /** The payment count is usable: falsy, or a number compared with zero,
      with `curPaymentNum` present whenever the count is positive. */
  predicate PaymentUsable(rec: Record) {
    var n := Get(rec, "numOfPayments");
    && (!Truthy(n) || n.Int? || n.Num? || n.Bool?)
    && (PaymentDue(rec) ==> "curPaymentNum" in rec)
  }

  /** The comments value is usable: falsy, or something a for loop can
      walk (a list, a string or a dict). */
  predicate CommentsUsable(rec: Record) {
    var c := Get(rec, "comments");
    !Truthy(c) || c.List? || c.Str? || c.Obj?
  }


  /** `format_metadata` raises exactly when the address, the payment count
      or the comments hold a value it cannot use. */
  lemma MetadataSucceeds(rec: Record, env: Env)
    ensures MetadataLines(rec, env).Ok? <==> AddressUsable(rec) && PaymentUsable(rec) && CommentsUsable(rec)
  {
  }

  /** A positive payment count with no `curPaymentNum` is a missing-field
      error, not an omitted line (unless the address fails first). */
  lemma MissingCurrentPayment(rec: Record, env: Env)
    requires AddressUsable(rec) && PaymentDue(rec) && "curPaymentNum" !in rec
    ensures MetadataLines(rec, env) == Err(MissingField("curPaymentNum"))
  {
  }

  /** The only key whose absence makes `format_metadata` fail is
      `curPaymentNum`; every other failure is a value it cannot use. */
  lemma MetadataMissingKey(rec: Record, env: Env)
    requires MetadataLines(rec, env).Err?
    requires MetadataLines(rec, env).error.MissingField?
    ensures MetadataLines(rec, env).error == MissingField("curPaymentNum")
    ensures "curPaymentNum" !in rec
  {
  }

  /** Only the address and the comments are cleaned: a field printed as it
      is keeps its line breaks, so a metadata line can hold a newline. */
  lemma RawFieldKeepsNewline(env: Env)
    ensures var r := MetadataOf(map["trnIntId" := Str("A\nB")], env);
      r.Ok? && r.value == ["; Transaction ID: A\nB"] && '\n' in r.value[0]
  {
    var rec := map["trnIntId" := Str("A\nB")];
    ExampleSegments(env);
    MetadataTexts(rec, env);
  }

  lemma ExampleSegments(env: Env)
    ensures Segments(map["trnIntId" := Str("A\nB")], env)
      == Ok([[Line(TransactionId, "; Transaction ID: A\nB")], [], [], [], [], [], [], [], [], [], []])
  {
    var rec := map["trnIntId" := Str("A\nB")];
    var line := Line(TransactionId, "; Transaction ID: A\nB");
    forall l | l != TransactionId
      ensures Key(l) !in rec
    {
      assert Key(l) != "trnIntId" by {
        assert |Key(l)| != 8 || Key(l)[0] != 't';
      }
    }
    assert Prefix(TransactionId) + PyStr(rec["trnIntId"], env) == line.text;
    assert TextRule(rec, env, TransactionId) == [line];
    assert AddressRule(rec) == Ok([]) && PaymentRule(rec, env) == Ok([]) && CommentRule(rec, env) == Ok([]);
  }
}
