/**
 * The status-code registry of the resolver: two fixed tables between the
 * completion names of the Postfix TCP map protocol and SMTP-like numeric
 * codes, and the `get` lookup over them.
 */
module StatusCodes {
  import opened Wrappers
  import Decimal
  import Text

  // The class attributes holding the message text of each completion name.
  const Ok: string := "OK Others might say 'HELLA AWESOME'...but we're not convinced."
  const Retry: string := "RETRY Server is busy plotting revolution; requests might take a while."
  const Bad: string := "BAD bad Leroy Brown, baddest man in the whole...er. Malformed request."
  const NoKey: string := "NOKEY Couldn't find your keys, sorry. Did you check in the sofa?"
  const Defer: string := "DEFER_IF_LOCAL xxx fill me in"
  const Deny: string := "DENY no gurlz aloud in teh tree house."
  const Fail: string := "FAIL this belongs on the failblog"

  /** `SMTPCodes`: numeric code, as a string, to message. */
  const SmtpCodes: map<string, string> :=
    map["200" := Ok, "400" := Retry, "500" := Bad, "550" := NoKey,
        "552" := Defer, "553" := Deny, "554" := Fail]

  /** `SMTPStrings`: completion name to numeric code. */
  const SmtpStrings: map<string, int> :=
    map["OK" := 200, "RETRY" := 400, "BAD" := 500, "NOKEY" := 550,
        "DEFER" := 552, "DENY" := 553, "FAIL" := 554]

  /**
   * `SMTPCodes.items()` in one iteration order. Python 2 does not fix the
   * order of a dict; `SearchCodesFindsMapEntry` shows the order does not
   * matter.
   */
  const CodeItems: seq<(string, string)> :=
    [("200", Ok), ("400", Retry), ("500", Bad), ("550", NoKey),
     ("552", Defer), ("553", Deny), ("554", Fail)]

  /** `getattr(StatusCodes, name, '')` for one of the seven completion names. */
  function Attribute(name: string): (text: string)
    requires name in SmtpStrings
    ensures exists i :: 0 <= i < |CodeItems| && CodeItems[i].1 == text
  {
    match name
    case "OK" => assert CodeItems[0].1 == Ok; Ok
    case "RETRY" => assert CodeItems[1].1 == Retry; Retry
    case "BAD" => assert CodeItems[2].1 == Bad; Bad
    case "NOKEY" => assert CodeItems[3].1 == NoKey; NoKey
    case "DEFER" => assert CodeItems[4].1 == Defer; Defer
    case "DENY" => assert CodeItems[5].1 == Deny; Deny
    case "FAIL" => assert CodeItems[6].1 == Fail; Fail
  }

  /** The argument of `get`: `None`, a `str`, an `int`, or any other object. */
  datatype Arg = NoArg | Str(s: string) | Int(n: int) | OtherType

  /**
   * The outcome of `get`: the bare `None` it falls through to, a
   * (code, message) pair whose code may be `None`, or the `KeyError`
   * raised by indexing `SMTPStrings`.
   */
  datatype Answer = Nothing | Pair(code: Option<int>, message: string) | KeyError

  /** Python truth value of the argument. */
  predicate Truthy(arg: Arg)
  {
    match arg
    case NoArg => false
    case Str(s) => s != []
    case Int(n) => n != 0
    case OtherType => true
  }

  /**
   * The loop over `SMTPCodes.items()`: the message of the first entry whose
   * key is `key`, except that the key "500" is never taken.
   */
  function SearchCodes(items: seq<(string, string)>, key: string): (r: Option<string>)
    ensures r.Some? <==> key != "500" && exists i :: 0 <= i < |items| && items[i].0 == key
    ensures r.Some? ==> exists i :: 0 <= i < |items| && items[i] == (key, r.value)
  {
    if items == [] then None
    else if items[0].0 == key && items[0].0 != "500" then Some(items[0].1)
    else
      var r := SearchCodes(items[1..], key);
      assert forall i :: 1 <= i < |items| ==> items[i] == items[1..][i - 1];
      r
  }

  /**
   * Whatever order the items of a dict come in, the loop finds the dict's
   * own entry for the key, and nothing for "500" or a missing key.
   */
  lemma SearchCodesFindsMapEntry(items: seq<(string, string)>, m: map<string, string>, key: string)
    requires forall i :: 0 <= i < |items| ==> items[i].0 in m && m[items[i].0] == items[i].1
    requires forall k :: k in m ==> exists i :: 0 <= i < |items| && items[i].0 == k
    ensures SearchCodes(items, key) == if key != "500" && key in m then Some(m[key]) else None
  {
  }

  lemma CodeItemsEnumerateSmtpCodes()
    ensures forall i :: 0 <= i < |CodeItems| ==>
      CodeItems[i].0 in SmtpCodes && SmtpCodes[CodeItems[i].0] == CodeItems[i].1
    ensures forall k :: k in SmtpCodes ==> exists i :: 0 <= i < |CodeItems| && CodeItems[i].0 == k
  {
    forall k | k in SmtpCodes
      ensures exists i :: 0 <= i < |CodeItems| && CodeItems[i].0 == k
    {
      if k == "200" { assert CodeItems[0].0 == k; }
      else if k == "400" { assert CodeItems[1].0 == k; }
      else if k == "500" { assert CodeItems[2].0 == k; }
      else if k == "550" { assert CodeItems[3].0 == k; }
      else if k == "552" { assert CodeItems[4].0 == k; }
      else if k == "553" { assert CodeItems[5].0 == k; }
      else { assert CodeItems[6].0 == k; }
    }
  }

  /**
   * `str(n)` is a key of `SMTPCodes` exactly when `n` is one of the seven
   * codes of `SMTPStrings`.
   */
  lemma CodeKeys(n: int)
    ensures Decimal.IntToString(n) in SmtpCodes <==> n in SmtpStrings.Values
  {
    NamesOfCodes();
    CodeTexts();
    forall c | c in SmtpStrings.Values && Decimal.IntToString(n) == Decimal.IntToString(c)
      ensures n == c
    {
      Decimal.IntToStringInjective(n, c);
    }
  }

  /** `str` of each of the seven codes. */
  lemma CodeTexts()
    ensures Decimal.IntToString(200) == "200" && Decimal.IntToString(400) == "400"
    ensures Decimal.IntToString(500) == "500" && Decimal.IntToString(550) == "550"
    ensures Decimal.IntToString(552) == "552" && Decimal.IntToString(553) == "553"
    ensures Decimal.IntToString(554) == "554"
  {
  }

  lemma NamesOfCodes()
    ensures SmtpStrings.Values == {200, 400, 500, 550, 552, 553, 554}
  {
    assert SmtpStrings["OK"] == 200 && SmtpStrings["RETRY"] == 400 && SmtpStrings["BAD"] == 500;
    assert SmtpStrings["NOKEY"] == 550 && SmtpStrings["DEFER"] == 552;
    assert SmtpStrings["DENY"] == 553 && SmtpStrings["FAIL"] == 554;
  }

  /** Every completion name is already upper case. */
  lemma NamesAreUpper(name: string)
    requires name in SmtpStrings
    ensures Text.Upper(name) == name
  {
    Text.UpperFixedPoints(name);
  }

  /**
   * `StatusCodes.get`, as written: a string is checked against the names
   * after upper-casing but then looked up as given, so a known name in lower
   * case raises `KeyError`; an integer is searched for among the numeric
   * codes, refusing 500; a false argument, or one of another type, falls
   * through to `None`.
   */
  function Get(arg: Arg): (r: Answer)
    ensures r.Nothing? <==> !Truthy(arg) || arg.OtherType?
    ensures r.KeyError? <==> arg.Str? && Text.Upper(arg.s) in SmtpStrings && arg.s !in SmtpStrings
    ensures r.Pair? && r.code.None? ==> r.message == []
    ensures r.Pair? && r.code.Some? ==>
      r.code.value in SmtpStrings.Values
      && Decimal.IntToString(r.code.value) in SmtpCodes
      && (r.message == SmtpCodes[Decimal.IntToString(r.code.value)]
          || (r.code.value == 500 && r.message == Fail))
  {
    match arg
    case Str(s) =>
      if s == [] then Nothing
      else if Text.Upper(s) in SmtpStrings then
        if s in SmtpStrings then
          NameRoundTrip(s);
          Pair(Some(SmtpStrings[s]), Attribute(Text.Upper(s)))
        else KeyError
      else
        CodeKeys(500);
        NamesOfCodes();
        Pair(Some(500), Fail)
    case Int(n) =>
      if n == 0 then Nothing
      else
        (match SearchCodes(CodeItems, Decimal.IntToString(n))
         case Some(v) =>
           CodeItemsEnumerateSmtpCodes();
           SearchCodesFindsMapEntry(CodeItems, SmtpCodes, Decimal.IntToString(n));
           CodeKeys(n);
           Pair(Some(n), v)
         case None => Pair(None, []))
    case _ => Nothing
  }

  /**
   * The two tables agree: a completion name's code, rendered with `str`,
   * leads back to that name's message.
   */
  lemma NameRoundTrip(name: string)
    requires name in SmtpStrings
    ensures Text.Upper(name) == name
    ensures Decimal.IntToString(SmtpStrings[name]) in SmtpCodes
    ensures SmtpCodes[Decimal.IntToString(SmtpStrings[name])] == Attribute(name)
  {
    CodeTexts();
  }

  /** Every upper-case completion name answers its code and its message. */
  lemma GetName(name: string)
    requires name in SmtpStrings
    ensures Get(Str(name)) == Pair(Some(SmtpStrings[name]), Attribute(name))
    ensures Attribute(name) == SmtpCodes[Decimal.IntToString(SmtpStrings[name])]
  {
    NameRoundTrip(name);
  }

  /** A non-empty string that is no completion name, in any case, answers 500 with the FAIL text. */
  lemma GetUnknownName(s: string)
    requires s != [] && Text.Upper(s) !in SmtpStrings
    ensures Get(Str(s)) == Pair(Some(500), Fail)
  {
  }

  /**
   * A non-zero integer answers itself and its message when it is one of the
   * codes other than 500; 500 and every other integer answer `(None, '')`.
   */
  lemma GetCode(n: int)
    requires n != 0
    ensures Get(Int(n)) ==
      if n != 500 && Decimal.IntToString(n) in SmtpCodes
      then Pair(Some(n), SmtpCodes[Decimal.IntToString(n)])
      else Pair(None, [])
  {
    CodeItemsEnumerateSmtpCodes();
    SearchCodesFindsMapEntry(CodeItems, SmtpCodes, Decimal.IntToString(n));
    if n == 500 {
      CodeTexts();
    } else if Decimal.IntToString(n) == "500" {
      Decimal.IntToStringOfDigits(n, "500");
      Decimal.DigitsValueOfThree("500");
    }
  }

  /**
   * Looking up a name and looking up its code give the same answer, for
   * every name but BAD, whose code 500 the integer lookup refuses.
   */
  lemma NameAndCodeAgree(name: string)
    requires name in SmtpStrings
    ensures name != "BAD" ==> Get(Int(SmtpStrings[name])) == Get(Str(name))
    ensures Get(Int(SmtpStrings["BAD"])) == Pair(None, [])
  {
    GetName(name);
    NamesOfCodes();
    CodeTexts();
    GetCode(SmtpStrings[name]);
    GetCode(500);
  }

  /** As written, the lower-case spelling of a completion name raises `KeyError`. */
  lemma LowercaseNameRaises()
    ensures Get(Str("ok")) == KeyError
  {
    assert Text.Upper("ok") == "OK";
  }

  /**
   * `get` with the name looked up after upper-casing, as the membership
   * test beside it evidently intends: it never raises, and it agrees with
   * `Get` wherever `Get` does not raise.
   */
  function GetCorrected(arg: Arg): (r: Answer)
    ensures !r.KeyError?
    ensures arg.Str? && arg.s != [] && Text.Upper(arg.s) in SmtpStrings ==>
      r == Pair(Some(SmtpStrings[Text.Upper(arg.s)]), Attribute(Text.Upper(arg.s)))
    ensures !Get(arg).KeyError? ==> r == Get(arg)
  {
    match arg
    case Str(s) =>
      if s != [] && Text.Upper(s) in SmtpStrings then
        var name := Text.Upper(s);
        NameRoundTrip(name);
        assert s in SmtpStrings ==> s == name by {
          if s in SmtpStrings { NamesAreUpper(s); }
        }
        Pair(Some(SmtpStrings[name]), Attribute(name))
      else Get(arg)
    case _ => Get(arg)
  }
}
