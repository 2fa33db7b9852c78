# Cal transactions to ledger entries

A Dafny model of the converter in `cal_to_ledger.py`. It turns transaction records exported from the Cal credit-card site into plain-text ledger entries. Each record is one entry with three parts:

- a header line `date * merchant`;
- the record's details as indented `; ...` comment lines;
- an expense posting to a category chosen by the merchant category code, and a posting to the card's liability account.

Entries are separated by a blank line. The first record that cannot be converted aborts the whole conversion.

The model has four modules.

- `Values` (values.dfy) holds the parsed JSON values and the pieces of Python behaviour the converter relies on:
  - truthiness, `dict.get` and `d[key]`;
  - `str()` of strings, ints, booleans and None;
  - what a `for` loop visits;
  - the dict `json.loads` builds from an object, where a later duplicate key wins.
  
  An error is `MissingField(key)` for a `KeyError`. It is `BadValue(key)` for a present value the code cannot use: one that raises `TypeError`, `ValueError`, `AttributeError` or `OverflowError` while the named field is processed.
- `Text` (text.dfy) holds `clean_string`, `str.join` and the `str.split` that takes a join apart again.
- `Metadata` (metadata.dfy) holds `format_metadata`.
  - The specification function `MetadataOf` tags every line with the rule that produced it.
  - The method `FormatMetadata` follows the source's groups of conditional appends. Each group is its own method, and the comment loop keeps its invariant.
  - The method is proved equal to the specification. Order, prefixes and the lines of each rule are proved about the specification.
- `Ledger` (ledger.dfy) holds `format_amount`, `get_category_from_mcc`, `convert_transaction` and the mapping and joining part of `convert_json_to_ledger`.
  - `ConvertTransaction` and `ConvertJsonToLedger` are methods that follow the source's statements and loop.
  - They are proved equal to the functions `ConvertElement` and `Document`, and the lemmas speak about those functions.

Outside values are parameters held in `Env`:
- the category table `data.MCC_EXPENSE_CATEGORIES`;
- date parsing and reformatting (`datetime.fromisoformat(...).strftime("%Y-%m-%d")`, `None` when it does not parse);
- the `:.2f` rendering of a float;
- `str()` of a float, a list or a dict.

Metadata lines can contain a newline. The code cleans only the address, the comments and the merchant name. Every other field is interpolated as it is, so a transaction ID holding a line break yields a metadata line holding a line break (`Metadata.RawFieldKeepsNewline` shows one input). `Ledger.EntrySplits` therefore assumes that no line contains a newline, rather than proving it.

An int amount is converted to a float before it is formatted, as `f"{amount:.2f}"` does. The model rounds to 53 significant bits, with ties going to the even neighbour, and the conversion fails from 2^1024 on, where Python raises `OverflowError`.

## Model

| member | source | states |
|---|---|---|
| Values.ToRecord | cal_to_ledger.py:299 | the dict built from a JSON object has exactly the object's keys, each bound to the value of its last occurrence |
| Values.IterateDict | cal_to_ledger.py:263 | a for loop over a dict visits each of its keys exactly once, as a string, and nothing else |
| Values.IntToFloatExact | cal_to_ledger.py:221 | an int below 2^53 in magnitude becomes the float of the same value |
| Values.RoundsHalfToEven | cal_to_ledger.py:221 | 2^53 + 1, halfway between two floats, rounds to the even one, 2^53 |
| Values.LargeIntOverflows | cal_to_ledger.py:221 | an int of 2^1024 or more in magnitude has no float |
| Values.IntDecimalRoundTrip | cal_to_ledger.py:221 | the text written for an int, with its minus sign when negative, reads back as that int |
| Values.DecimalRoundTrip | cal_to_ledger.py:221 | the decimal digits written for a whole number read back as that number |
| Text.CleanString | cal_to_ledger.py:212-217 | the cleaned string has no whitespace at either end, no two neighbouring whitespace characters, only plain spaces and no newline |
| Text.CleanSeparatesWords | cal_to_ledger.py:217 | a whitespace run of any length and kind between two visible characters becomes exactly one space, and the text on each side is cleaned on its own |
| Text.CleanIgnoresPadding | cal_to_ledger.py:217 | whitespace added at either end of a string does not change its cleaned form, so stripping removes only the ends |
| Text.CleanEmpty | cal_to_ledger.py:212-217 | cleaning gives "" exactly when the input is empty or all whitespace |
| Text.CleanKeepsVisible | cal_to_ledger.py:212-217 | cleaning keeps every non-whitespace character, in order |
| Text.CleanFixesNormalized | cal_to_ledger.py:212-217 | a string that is already clean is returned unchanged |
| Text.CleanIdempotent | cal_to_ledger.py:212-217 | cleaning twice gives the same result as cleaning once |
| Text.SplitJoin | cal_to_ledger.py:294 | splitting a joined text at the separator gives back the parts when no part contains the separator |
| Metadata.FormatMetadata | cal_to_ledger.py:227-266 | the sequence of groups of appends returns exactly the specified metadata lines, or the error of the first group that raises |
| Metadata.AddEssentialDetails | cal_to_ledger.py:231-233 | appends the transaction-ID line exactly when `trnIntId` is truthy |
| Metadata.AddMerchantInfo | cal_to_ledger.py:235-241 | appends the address, phone and merchant-ID lines, or fails when a truthy address is not a string |
| Metadata.AddTransactionDetails | cal_to_ledger.py:243-249 | appends the card-present, transaction-type and MCC lines |
| Metadata.AddPaymentInfo | cal_to_ledger.py:251-253 | appends the payment line, or fails on a count that cannot be compared with zero or on a missing `curPaymentNum` |
| Metadata.AddFlags | cal_to_ledger.py:255-259 | appends the foreign-transaction and refund markers |
| Metadata.AddComments | cal_to_ledger.py:261-264 | appends one cleaned line per element of a truthy `comments`, or fails when it cannot be iterated |
| Metadata.MetadataOrdered | cal_to_ledger.py:227-266 | the lines appear in rule order (Transaction ID, Address, Phone, Merchant ID, Card Present, Transaction Type, MCC, Payment, Foreign, Refund, comments), each starting with its rule's prefix |
| Metadata.PrefixDistinct | cal_to_ledger.py:232-264 | no rule's prefix is the start of another rule's prefix |
| Metadata.ReadLabel | cal_to_ledger.py:232-264 | a text that starts with a rule's prefix is read back as that rule |
| Metadata.TagsReadable | cal_to_ledger.py:227-266 | reading each returned string back gives the rule that produced it |
| Metadata.EveryLineIsComment | cal_to_ledger.py:227-266 | every string returned starts with "; " |
| Metadata.AtMostOnce | cal_to_ledger.py:232-259 | every rule except the comment rule contributes at most one line |
| Metadata.MetadataSelect | cal_to_ledger.py:227-266 | the lines of one rule inside the result are exactly the lines that rule produces on its own |
| Metadata.TextRuleLines | cal_to_ledger.py:232-249 | Transaction ID, Phone, Merchant ID, Transaction Type and MCC give one line `prefix + str(value)` exactly when the field is truthy, so an empty string or a zero gives none |
| Metadata.AddressRuleLines | cal_to_ledger.py:236-237 | a truthy address gives one line holding the cleaned address, and no line otherwise |
| Metadata.CardPresentRuleLines | cal_to_ledger.py:244-245 | the card-present line appears exactly when the field is present and not None, and reads "Yes" for a truthy value and "No" otherwise, so an explicit False still gives a line |
| Metadata.PaymentRuleLines | cal_to_ledger.py:252-253 | the line "Payment X of Y" appears exactly when `numOfPayments` is truthy and positive, and `curPaymentNum` is then present |
| Metadata.MissingCurrentPayment | cal_to_ledger.py:252-253 | a positive payment count with no `curPaymentNum` is a missing-field error naming it, not an omitted line |
| Metadata.FlagRuleLines | cal_to_ledger.py:256-259 | the foreign-transaction and refund markers appear exactly when their flag is truthy |
| Metadata.CommentRuleLines | cal_to_ledger.py:262-264 | a truthy `comments` gives one line per element, in order, each holding the cleaned `str()` of the whole element; a falsy one gives none |
| Metadata.MetadataSucceeds | cal_to_ledger.py:236-264 | `format_metadata` succeeds exactly when the address, the payment count and the comments are usable |
| Metadata.MetadataMissingKey | cal_to_ledger.py:253 | the only absent key that makes `format_metadata` fail is `curPaymentNum` |
| Metadata.RawFieldKeepsNewline | cal_to_ledger.py:232-233 | a transaction ID containing a newline yields a metadata line containing that newline |
| Ledger.AmountText | cal_to_ledger.py:221 | the `.2f` rendering succeeds exactly on a float, a bool, or an int that converts to a float without overflow; any other value fails at `amountForDisplay` |
| Ledger.FloatAmount | cal_to_ledger.py:219-221 | an int amount, negative or not, is written as the decimal text of the float it converts to, ".00", a space and the currency, and that text reads back as the float |
| Ledger.IntAmount | cal_to_ledger.py:219-221 | an int amount below 2^53 in magnitude, negative or not, is written as its own decimal text, ".00", a space and the currency, and the text reads back as the amount |
| Ledger.RefundAmount | cal_to_ledger.py:219-221 | the refund amount -50 in ILS is written "-50.00 ILS" |
| Ledger.HugeIntAmount | cal_to_ledger.py:219-221 | an int amount of 2^1024 or more fails at `amountForDisplay`, whatever the currency |
| Ledger.AbsentMcc | cal_to_ledger.py:278 | a record without `internationalBranchID` is categorised as the code "" |
| Ledger.MerchantName | cal_to_ledger.py:275 | the merchant name is "" for a falsy value and the cleaned string for a string, and is always clean; a truthy non-string raises |
| Ledger.EntryHeader | cal_to_ledger.py:271-289 | the header line is the reformatted purchase date, " * " and the cleaned merchant name, or "" for a falsy name; the date is then a string that parses |
| Ledger.EntryPostings | cal_to_ledger.py:278-292 | the last two lines are the expense posting, to the table's category for a string code it holds and to "Expense:Uncategorized" otherwise, with the formatted amount, and the card posting ending in the card id |
| Ledger.ConvertTransaction | cal_to_ledger.py:268-294 | the statement-by-statement conversion returns exactly the specified entry, or the error of the first read that fails |
| Ledger.FieldsRead | cal_to_ledger.py:271-286 | each part of a converted entry comes from its field: the date, the card, the cleaned name, the category, the formatted amount and the metadata |
| Ledger.EntryLayout | cal_to_ledger.py:289-294 | an entry has 1 + metadata + 2 lines: the header, the indented metadata, the category posting and the card posting |
| Ledger.EntrySplits | cal_to_ledger.py:294 | splitting an entry at newlines gives back its lines when no line holds a newline |
| Ledger.RequiredFields | cal_to_ledger.py:271-282 | a converted record has all five required keys |
| Ledger.FirstMissingField | cal_to_ledger.py:271-282 | when a required key is the first one absent in read order and the values read before it are usable, conversion fails naming that key |
| Ledger.MissingFieldIsFirst | cal_to_ledger.py:271-286 | a missing-field error names an absent key: the first absent required key in read order, or `curPaymentNum` when all five are present |
| Ledger.FieldsSucceed | cal_to_ledger.py:271-286 | the reads of a record all succeed exactly when the five required keys are present, their values are usable and the metadata can be formatted |
| Ledger.EntrySucceeds | cal_to_ledger.py:268-294 | a record converts exactly when it has the five required keys, its values are usable and its metadata can be formatted |
| Ledger.ConvertJsonToLedger | cal_to_ledger.py:296-307 | the loop over the transactions returns exactly the specified ledger text, or the first error |
| Ledger.CollectSnoc | cal_to_ledger.py:304-305 | one more iteration appends the element's entry, or makes its error the result |
| Ledger.FailureStops | cal_to_ledger.py:304-305 | once one element fails, the later elements do not change the outcome |
| Ledger.CollectOk | cal_to_ledger.py:304-305 | collecting succeeds exactly when every element succeeds |
| Ledger.CollectValues | cal_to_ledger.py:304-307 | a success holds every element's value, in input order |
| Ledger.CollectFirstError | cal_to_ledger.py:304-305 | a failure is the error of the first failing element |
| Ledger.LedgerSucceeds | cal_to_ledger.py:300-307 | the ledger is produced exactly when every transaction converts, and it is then their entries in input order joined by blank lines |
| Ledger.LedgerFirstError | cal_to_ledger.py:303-305 | a failing transaction makes the whole conversion fail with the first failing transaction's error, with no partial output |
| Ledger.DocumentPath | cal_to_ledger.py:300 | a document that is not a dict, lacks `result`, or has a `result` dict without `transArr` fails at that step with the named key |

## Left out

- Command-line I/O (cal_to_ledger.py:314-321): reading stdin, printing the ledger, and the "Error:" message.
- `json.loads` and `JSONDecodeError` (cal_to_ledger.py:299, 309-310): the model starts from the parsed value. JSON's `NaN` and `Infinity`, which Python's parser accepts, are not values of the model, because numbers are unbounded integers and exact reals.
- Floats: a JSON number with a fraction or an exponent is `Num(x)`, where x is the value of the double that `json.loads` produced. So `1e-400` is `Num(0.0)`, which is falsy. The rounding of decimal text into doubles happens in the parser, outside the model.
- Exception classes: every failure is `MissingField` or `BadValue`. The `ValueError` that wraps a `KeyError` (cal_to_ledger.py:311-312) and its message text are not modelled. The model also does not capture that a `TypeError` or `AttributeError` escapes the function unwrapped.
- Date parsing (cal_to_ledger.py:271) is the parameter `Env.parseDate`, a partial function that returns `None` on input that does not parse.
- Ledger.AmountText: the two-decimal rendering of a float is the parameter `Env.fixed2`. Ints and booleans are rendered by the model itself: they are whole-valued floats and always get ".00".
- Ledger.IntAmount: states the digits only for ints below 2^53, where the float is exact. For larger ints it is stated by `Ledger.FloatAmount` with `Values.RoundsHalfToEven`, and the overflow by `Ledger.HugeIntAmount`.
- Values.IterateDict: states which keys are visited, each once, but not that they come in first-occurrence order.
- The limit of 4300 digits that Python 3.11 and later put on converting an int to a string or back is not modelled. It makes `json.loads` and `str()` of a longer int raise.
- `str()` of a float, a list or a dict (cal_to_ledger.py:233-264, 292) is the parameter `Env.repr`.
- The contents of `data.MCC_EXPENSE_CATEGORIES` (cal_to_ledger.py:225) are the parameter `Env.categories`, a map from string codes. A code that is not a string is never found in it.
- Text.IsWhitespace: the whitespace class of `str.strip()` and `\s` is a fixed table of the characters Python's `str.isspace()` accepts, not read from the Unicode database.
- In-place list mutation: `metadata`, `lines` and `ledger_entries` are Dafny sequences that the methods reassign. No aliasing is modelled, and no other code holds these lists.
- The schema description (cal_to_ledger.py:10-210) is documentation.
