/** The advisory engine's reply handling (`app.py`, lines 119-204): the advisor's reply text
    is cut into lines, the `ACTION:`, `AMOUNT:` and `REASON:` lines are read into three
    fields with defaults, and the result is clamped into a buy / sell / hold suggestion.
    The reply is an input; Python's `float()` on the amount text is the parameter `toFloat`,
    None standing for the ValueError it raises. */
module Advice {
  import opened Wrappers
  import opened Text
  import opened Rounding

  datatype Action = Buy | Sell | Hold

  datatype Suggestion = Suggestion(action: Action, amount: real, reason: string)

  /** What the call to the text generator produced: the message text, or the error it raised. */
  datatype Reply = Reply(text: string) | CallFailed(error: string)

  /** The three fields as read so far. */
  datatype Fields = Fields(action: string, amount: real, reason: string)

  /** Reading the lines either yields the fields or stops at an amount `float()` rejects. */
  datatype ParseOutcome = Parsed(fields: Fields) | BadAmount(text: string)

  const DEFAULT_REASON: string := "Unable to parse AI suggestion"
  const DEFAULTS: Fields := Fields("hold", 0.0, DEFAULT_REASON)
  const BUY_CAP: real := 0.5
  const BALANCE_SHARE: real := 0.5

  predicate IsActionLine(line: string) { StartsWith(line, "ACTION:") }
  predicate IsAmountLine(line: string) { StartsWith(line, "AMOUNT:") }
  predicate IsReasonLine(line: string) { StartsWith(line, "REASON:") }

  /** `line.replace('ACTION:', '').strip().lower()` */
  function ActionValue(line: string): string
  {
    Lower(Strip(RemoveAll(line, "ACTION:")))
  }

  /** The amount text handed to `float()`: marker removed, stripped, lower-cased, and any
      `eth` removed with the result stripped again. */
  function AmountText(line: string): string
  {
    var text := Lower(Strip(RemoveAll(line, "AMOUNT:")));
    if Contains(text, "eth") then Strip(RemoveAll(text, "eth")) else text
  }

  /** `line.replace('REASON:', '').strip()` */
  function ReasonValue(line: string): string
  {
    Strip(RemoveAll(line, "REASON:"))
  }

  /** One pass of the loop body: the first marker the line starts with decides which field
      it replaces. */
  function ParseLine(f: Fields, line: string, toFloat: string -> Option<real>): ParseOutcome
  {
    if IsActionLine(line) then Parsed(f.(action := ActionValue(line)))
    else if IsAmountLine(line) then
      match toFloat(AmountText(line))
      case None => BadAmount(AmountText(line))
      case Some(v) => Parsed(f.(amount := v))
    else if IsReasonLine(line) then Parsed(f.(reason := ReasonValue(line)))
    else Parsed(f)
  }

  /** The outcome of reading `lines` in order from the defaults; a rejected amount ends the
      reading. */
  function ParseAll(lines: seq<string>, toFloat: string -> Option<real>): ParseOutcome
    decreases |lines|
  {
    if lines == [] then Parsed(DEFAULTS)
    else
      match ParseAll(lines[..|lines| - 1], toFloat)
      case BadAmount(text) => BadAmount(text)
      case Parsed(f) => ParseLine(f, lines[|lines| - 1], toFloat)
  }

  /** The parsing loop of `get_ai_trading_suggestion` (lines 155-169): three locals
      updated line by line, left at the first amount `float()` rejects. */
  method ParseLines(lines: seq<string>, toFloat: string -> Option<real>) returns (r: ParseOutcome)
    ensures r == ParseAll(lines, toFloat)
  {
    var action, amount, reason := DEFAULTS.action, DEFAULTS.amount, DEFAULTS.reason;
    var i := 0;
    while i < |lines|
      invariant 0 <= i <= |lines|
      invariant ParseAll(lines[..i], toFloat) == Parsed(Fields(action, amount, reason))
    {
      var line := lines[i];
      assert lines[..i + 1][..i] == lines[..i];
      if IsActionLine(line) {
        action := ActionValue(line);
      } else if IsAmountLine(line) {
        var amountText := AmountText(line);
        match toFloat(amountText)
        case None =>
          r := BadAmount(amountText);
          BadAmountPersists(lines, i + 1, toFloat);
          return;
        case Some(v) =>
          amount := v;
      } else if IsReasonLine(line) {
        reason := ReasonValue(line);
      }
      i := i + 1;
    }
    assert lines[..i] == lines;
    r := Parsed(Fields(action, amount, reason));
  }

  /** Once an amount has been rejected, later lines change nothing. */
  lemma {:induction false} BadAmountPersists(lines: seq<string>, k: nat, toFloat: string -> Option<real>)
    requires k <= |lines|
    requires ParseAll(lines[..k], toFloat).BadAmount?
    ensures ParseAll(lines, toFloat) == ParseAll(lines[..k], toFloat)
    decreases |lines| - k
  {
    if k < |lines| {
      assert lines[..k + 1][..k] == lines[..k];
      BadAmountPersists(lines, k + 1, toFloat);
    } else {
      assert lines[..k] == lines;
    }
  }

  function Min(a: real, b: real): real
  {
    if b < a then b else a
  }

  function Abs(x: real): real
  {
    if x < 0.0 then -x else x
  }

  /** The validation step (lines 173-185) for an ETH balance of `balance`. */
  function Clamp(f: Fields, balance: real): Suggestion
  {
    var (action, amount) :=
      if f.action == "buy" then (Buy, Min(BUY_CAP, balance * BALANCE_SHARE))
      else if f.action == "sell" then (Sell, Min(f.amount, balance * BALANCE_SHARE))
      else (Hold, 0.0);
    Suggestion(action, Round4(Abs(amount)), f.reason)
  }

  /** The message Python's `float()` raises with, as the parse-error reason quotes it. */
  function FloatErrorMessage(text: string): string
  {
    "could not convert string to float: '" + text + "'"
  }

  /** `get_ai_trading_suggestion(balance_eth, eth_price)` with the advisor's reply given:
      a failed call or a rejected amount give a hold of 0 with the error as reason. */
  function Suggest(balance: real, reply: Reply, toFloat: string -> Option<real>): Suggestion
  {
    match reply
    case CallFailed(error) => Suggestion(Hold, 0.0, "Unable to get AI suggestion: " + error)
    case Reply(text) =>
      match ParseAll(Split(Strip(text), '\n'), toFloat)
      case BadAmount(amountText) =>
        Suggestion(Hold, 0.0, "Error parsing AI suggestion: " + FloatErrorMessage(amountText))
      case Parsed(f) => Clamp(f, balance)
  }

  /** `get_ai_trading_suggestion` as a procedure around the parsing loop. */
  method GetSuggestion(balance: real, reply: Reply, toFloat: string -> Option<real>) returns (s: Suggestion)
    ensures s == Suggest(balance, reply, toFloat)
  {
    match reply
    case CallFailed(error) =>
      s := Suggestion(Hold, 0.0, "Unable to get AI suggestion: " + error);
    case Reply(text) =>
      var lines := Split(Strip(text), '\n');
      var parsed := ParseLines(lines, toFloat);
      match parsed
      case BadAmount(amountText) =>
        s := Suggestion(Hold, 0.0, "Error parsing AI suggestion: " + FloatErrorMessage(amountText));
      case Parsed(f) =>
        s := Clamp(f, balance);
  }

  // ---------------------------------------------------------------------------------------
  // Properties of the parser

  /** The three markers exclude one another, so the order of the tests does not matter. */
  lemma MarkersDisjoint(line: string)
    ensures !(IsActionLine(line) && IsAmountLine(line))
    ensures !(IsActionLine(line) && IsReasonLine(line))
    ensures !(IsAmountLine(line) && IsReasonLine(line))
  {
    if IsActionLine(line) { assert line[1] == 'C'; }
    if IsAmountLine(line) { assert line[0] == 'A' && line[1] == 'M'; }
  }

  predicate IsFieldLine(line: string)
  {
    IsActionLine(line) || IsAmountLine(line) || IsReasonLine(line)
  }

  /** Without any marked line the reading yields the defaults. */
  lemma {:induction false} NoFieldLinesGiveDefaults(lines: seq<string>, toFloat: string -> Option<real>)
    requires forall i :: 0 <= i < |lines| ==> !IsFieldLine(lines[i])
    ensures ParseAll(lines, toFloat) == Parsed(Fields("hold", 0.0, "Unable to parse AI suggestion"))
    decreases |lines|
  {
    if lines != [] {
      var init := lines[..|lines| - 1];
      assert forall i :: 0 <= i < |init| ==> init[i] == lines[i];
      NoFieldLinesGiveDefaults(init, toFloat);
    }
  }

  /** The last line of `lines` that starts with `marker`, if any: the independent
      description of which line a field comes from. */
  function LastMarked(lines: seq<string>, marker: string): Option<string>
    decreases |lines|
  {
    if lines == [] then None
    else if StartsWith(lines[|lines| - 1], marker) then Some(lines[|lines| - 1])
    else LastMarked(lines[..|lines| - 1], marker)
  }

  /** When reading completes, each field comes from the last line holding its marker (a later
      line overwrites an earlier one), and otherwise keeps its default. */
  lemma {:induction false} FieldsComeFromLastMarkedLine(lines: seq<string>, toFloat: string -> Option<real>)
    requires ParseAll(lines, toFloat).Parsed?
    ensures ParseAll(lines, toFloat).fields.action ==
      (match LastMarked(lines, "ACTION:") case None => "hold" case Some(l) => ActionValue(l))
    ensures ParseAll(lines, toFloat).fields.reason ==
      (match LastMarked(lines, "REASON:") case None => DEFAULT_REASON case Some(l) => ReasonValue(l))
    ensures LastMarked(lines, "AMOUNT:").None? ==> ParseAll(lines, toFloat).fields.amount == 0.0
    ensures LastMarked(lines, "AMOUNT:").Some? ==>
      toFloat(AmountText(LastMarked(lines, "AMOUNT:").value)) == Some(ParseAll(lines, toFloat).fields.amount)
    decreases |lines|
  {
    if lines != [] {
      var init := lines[..|lines| - 1];
      var last := lines[|lines| - 1];
      MarkersDisjoint(last);
      assert ParseAll(init, toFloat).Parsed?;
      FieldsComeFromLastMarkedLine(init, toFloat);
    }
  }

  /** A rejected AMOUNT line makes the whole reading stop with a rejected amount. */
  lemma RejectedLineStopsReading(lines: seq<string>, i: nat, toFloat: string -> Option<real>)
    requires i < |lines| && IsAmountLine(lines[i]) && toFloat(AmountText(lines[i])).None?
    ensures ParseAll(lines, toFloat).BadAmount?
  {
    var upTo := lines[..i + 1];
    assert upTo[..i] == lines[..i];
    assert upTo[i] == lines[i];
    MarkersDisjoint(lines[i]);
    match ParseAll(lines[..i], toFloat)
    case BadAmount(_) =>
      BadAmountPersists(lines, i, toFloat);
    case Parsed(f) =>
      assert ParseAll(upTo, toFloat) == ParseLine(f, lines[i], toFloat);
      BadAmountPersists(lines, i + 1, toFloat);
  }

  /** A reading that stops does so at the first AMOUNT line whose text `float()` rejects,
      and reports that line's text. */
  lemma {:induction false} ReadingStopsAtFirstRejectedLine(lines: seq<string>, toFloat: string -> Option<real>)
    returns (i: nat)
    requires ParseAll(lines, toFloat).BadAmount?
    ensures i < |lines| && IsAmountLine(lines[i]) && toFloat(AmountText(lines[i])).None?
    ensures ParseAll(lines, toFloat).text == AmountText(lines[i])
    ensures forall j :: 0 <= j < i && IsAmountLine(lines[j]) ==> toFloat(AmountText(lines[j])).Some?
    decreases |lines|
  {
    var n := |lines| - 1;
    var init := lines[..n];
    if ParseAll(init, toFloat).BadAmount? {
      i := ReadingStopsAtFirstRejectedLine(init, toFloat);
      assert lines[i] == init[i];
      assert forall j :: 0 <= j < i ==> lines[j] == init[j];
    } else {
      i := n;
      MarkersDisjoint(lines[n]);
      forall j | 0 <= j < i && IsAmountLine(lines[j])
        ensures toFloat(AmountText(lines[j])).Some?
      {
        if toFloat(AmountText(lines[j])).None? {
          assert init[j] == lines[j];
          RejectedLineStopsReading(init, j, toFloat);
        }
      }
    }
  }

  // ---------------------------------------------------------------------------------------
  // Properties of the clamp and of the whole suggestion

  /** The clamp: buy is min(0.5, balance / 2) whatever the parsed amount, sell is
      min(parsed, balance / 2), anything else a hold of 0; the amount is never negative and
      is the absolute value up to rounding to 4 places. */
  lemma ClampSpec(f: Fields, balance: real)
    ensures Clamp(f, balance).amount >= 0.0
    ensures Clamp(f, balance).reason == f.reason
    ensures Clamp(f, balance).action == Buy <==> f.action == "buy"
    ensures Clamp(f, balance).action == Sell <==> f.action == "sell"
    ensures Clamp(f, balance).action == Hold ==> Clamp(f, balance).amount == 0.0
    ensures f.action == "buy" ==> forall other :: Clamp(f.(amount := other), balance) == Clamp(f, balance)
    ensures f.action == "buy" ==>
      Abs(Min(BUY_CAP, balance * BALANCE_SHARE)) - 0.00005 <= Clamp(f, balance).amount <= Abs(Min(BUY_CAP, balance * BALANCE_SHARE)) + 0.00005
    ensures f.action == "buy" && balance >= 0.0 ==>
      && Clamp(f, balance).amount <= BUY_CAP
      && Min(BUY_CAP, balance * BALANCE_SHARE) - 0.00005 <= Clamp(f, balance).amount <= Min(BUY_CAP, balance * BALANCE_SHARE) + 0.00005
    ensures f.action == "sell" ==>
      Abs(Min(f.amount, balance * BALANCE_SHARE)) - 0.00005 <= Clamp(f, balance).amount <= Abs(Min(f.amount, balance * BALANCE_SHARE)) + 0.00005
  {
    var (action, amount) :=
      if f.action == "buy" then (Buy, Min(BUY_CAP, balance * BALANCE_SHARE))
      else if f.action == "sell" then (Sell, Min(f.amount, balance * BALANCE_SHARE))
      else (Hold, 0.0);
    Round4NonNegative(Abs(amount));
    Round4Error(Abs(amount));
    Round4Bounds(Abs(amount), 5000);
    Round4Bounds(0.0, 0);
  }

  /** The sell cap of half the balance holds only for a parsed amount of at least minus half
      the balance: a more negative amount escapes the cap through the absolute value. */
  lemma SellCap(f: Fields, balance: real)
    requires f.action == "sell" && balance >= 0.0
    ensures f.amount >= -(balance * BALANCE_SHARE) ==> Clamp(f, balance).amount <= balance * BALANCE_SHARE + 0.00005
    ensures f.amount < -(balance * BALANCE_SHARE) ==> Clamp(f, balance).amount >= -f.amount - 0.00005
  {
    Round4Error(Abs(Min(f.amount, balance * BALANCE_SHARE)));
  }

  /** A negative parsed sell amount of -5 ETH on a 0.2 ETH balance becomes a sale of 5 ETH,
      50 times the 0.1 ETH cap. */
  lemma SellCapEscapeExample()
    ensures Clamp(Fields("sell", -5.0, "r"), 0.2) == Suggestion(Sell, 5.0, "r")
  {
    Round4Bounds(5.0, 50000);
  }

  /** On a negative balance the buy amount min(0.5, balance / 2) is negative, and the absolute
      value turns it into half the debt: a balance of -4 ETH gives a buy of 2 ETH, over the
      0.5 ETH cap. */
  lemma BuyCapEscapeExample()
    ensures Clamp(Fields("buy", 0.0, "r"), -4.0) == Suggestion(Buy, 2.0, "r")
  {
    Round4Bounds(2.0, 20000);
  }

  /** The worked cases of the clamp for a 0.2 ETH balance: buy 5 gives 0.1, sell 0.05 gives
      0.05, an unknown action gives a hold of 0. */
  lemma ClampExamples()
    ensures Clamp(Fields("buy", 5.0, "r"), 0.2) == Suggestion(Buy, 0.1, "r")
    ensures Clamp(Fields("sell", 0.05, "r"), 0.2) == Suggestion(Sell, 0.05, "r")
    ensures Clamp(Fields("garbage", 3.0, "r"), 0.2) == Suggestion(Hold, 0.0, "r")
  {
    Round4Bounds(0.1, 1000);
    Round4Bounds(0.05, 500);
    Round4Bounds(0.0, 0);
  }

  /** Every suggestion, from whichever of the three places a hold is produced, carries a
      non-negative amount, and a hold carries 0. */
  lemma {:induction false} HoldCarriesZero(balance: real, reply: Reply, toFloat: string -> Option<real>)
    ensures Suggest(balance, reply, toFloat).amount >= 0.0
    ensures Suggest(balance, reply, toFloat).action == Hold ==> Suggest(balance, reply, toFloat).amount == 0.0
  {
    match reply
    case CallFailed(_) =>
    case Reply(text) =>
      match ParseAll(Split(Strip(text), '\n'), toFloat)
      case BadAmount(_) =>
      case Parsed(f) => ClampSpec(f, balance);
  }

  /** A reply without any marked line is read as a hold of 0 with the default reason. */
  lemma UnparsableReplyHolds(balance: real, text: string, toFloat: string -> Option<real>)
    requires forall line :: line in Split(Strip(text), '\n') ==> !IsFieldLine(line)
    ensures Suggest(balance, Reply(text), toFloat) == Suggestion(Hold, 0.0, "Unable to parse AI suggestion")
  {
    var lines := Split(Strip(text), '\n');
    assert forall i :: 0 <= i < |lines| ==> !IsFieldLine(lines[i]) by {
      forall i | 0 <= i < |lines| ensures !IsFieldLine(lines[i]) {
        assert lines[i] in lines;
      }
    }
    NoFieldLinesGiveDefaults(lines, toFloat);
    Round4Bounds(0.0, 0);
  }

  /** An AMOUNT line that `float()` rejects turns the whole reply into a hold of 0 whose reason
      quotes the error, whatever ACTION and REASON lines were read before or after it. */
  lemma RejectedAmountGivesHold(balance: real, text: string, toFloat: string -> Option<real>, i: nat)
    requires i < |Split(Strip(text), '\n')|
    requires IsAmountLine(Split(Strip(text), '\n')[i])
    requires toFloat(AmountText(Split(Strip(text), '\n')[i])).None?
    ensures Suggest(balance, Reply(text), toFloat).action == Hold
    ensures Suggest(balance, Reply(text), toFloat).amount == 0.0
    ensures exists rejected ::
      Suggest(balance, Reply(text), toFloat).reason == "Error parsing AI suggestion: " + FloatErrorMessage(rejected)
  {
    var lines := Split(Strip(text), '\n');
    RejectedLineStopsReading(lines, i, toFloat);
    var rejected := ParseAll(lines, toFloat).text;
    assert Suggest(balance, Reply(text), toFloat).reason == "Error parsing AI suggestion: " + FloatErrorMessage(rejected);
  }

  /** The ACTION marker is removed and the value lower-cased. */
  lemma ActionValueExample()
    ensures ActionValue("ACTION: SELL") == "sell"
  {
    assert RemoveAll("ACTION: SELL", "ACTION:") == " SELL";
    assert Strip(" SELL") == "SELL";
    assert Lower("SELL") == "sell";
  }

  /** The AMOUNT marker and the unit `ETH`, in either case, are removed before `float()`. */
  lemma AmountTextExample()
    ensures AmountText("AMOUNT: 0.05 ETH") == "0.05"
  {
    RemoveAmountMarkerExample();
    StripAmountExample();
    LowerExample();
    ContainsEthExample();
    RemoveEthExample();
    StripNumberExample();
  }

  lemma StripAmountExample()
    ensures Strip(" 0.05 ETH") == "0.05 ETH"
  {
    assert StripLeft(" 0.05 ETH") == "0.05 ETH";
  }

  lemma ContainsEthExample()
    ensures Contains("0.05 eth", "eth")
  {
    assert StartsWith("0.05 eth"[5..], "eth");
    assert Contains("0.05 eth"[4..], "eth");
    assert Contains("0.05 eth"[2..], "eth");
  }

  lemma StripNumberExample()
    ensures Strip("0.05 ") == "0.05"
  {
    assert StripRight("0.05 ") == StripRight("0.05");
  }

  lemma RemoveAmountMarkerExample()
    ensures RemoveAll("AMOUNT: 0.05 ETH", "AMOUNT:") == " 0.05 ETH"
  {
    assert "AMOUNT: 0.05 ETH"[7..] == " 0.05 ETH";
    KeepsUnmarkedText();
  }

  lemma KeepsUnmarkedText()
    ensures RemoveAll(" 0.05 ETH", "AMOUNT:") == " 0.05 ETH"
  {
    assert ".05 ETH"[..7] != "AMOUNT:" by { assert ".05 ETH"[0] != "AMOUNT:"[0]; }
    assert RemoveAll(".05 ETH", "AMOUNT:") == ".05 ETH";
    assert "0.05 ETH"[..7] != "AMOUNT:" by { assert "0.05 ETH"[0] != "AMOUNT:"[0]; }
    assert "0.05 ETH"[1..] == ".05 ETH";
    assert RemoveAll("0.05 ETH", "AMOUNT:") == "0.05 ETH";
    assert " 0.05 ETH"[..7] != "AMOUNT:" by { assert " 0.05 ETH"[0] != "AMOUNT:"[0]; }
    assert " 0.05 ETH"[1..] == "0.05 ETH";
  }

  lemma LowerExample()
    ensures Lower("0.05 ETH") == "0.05 eth"
  {
    assert Lower("TH") == "th";
    assert Lower(" ETH") == " eth";
    assert Lower("05 ETH") == "05 eth";
    assert Lower("0.05 ETH") == "0.05 eth";
  }

  lemma RemoveEthExample()
    ensures RemoveAll("0.05 eth", "eth") == "0.05 "
  {
    assert " eth"[..3] != "eth" by { assert " eth"[0] != "eth"[0]; }
    assert RemoveAll(" eth", "eth") == " ";
    assert "5 eth"[..3] != "eth" by { assert "5 eth"[0] != "eth"[0]; }
    assert "05 eth"[..3] != "eth" by { assert "05 eth"[0] != "eth"[0]; }
    assert RemoveAll("05 eth", "eth") == "05 ";
    assert ".05 eth"[..3] != "eth" by { assert ".05 eth"[0] != "eth"[0]; }
    assert "0.05 eth"[..3] != "eth" by { assert "0.05 eth"[0] != "eth"[0]; }
  }

  /** A well-formed reply: each marked line sets its own field. */
  lemma WellFormedReplyExample(toFloat: string -> Option<real>)
    requires toFloat("0.05") == Some(0.05)
    ensures ParseAll(["ACTION: SELL", "AMOUNT: 0.05 ETH", "REASON: fees"], toFloat) ==
      Parsed(Fields("sell", 0.05, "fees"))
  {
    var lines := ["ACTION: SELL", "AMOUNT: 0.05 ETH", "REASON: fees"];
    var f1 := DEFAULTS.(action := "sell");
    var f2 := f1.(amount := 0.05);
    ActionLineExample(toFloat);
    AmountLineExample(f1, toFloat);
    ReasonLineExample(f2, toFloat);
    assert lines[..0] == [];
    assert lines[..1][..0] == [];
    assert ParseAll(lines[..1], toFloat) == Parsed(f1);
    assert lines[..2][..1] == lines[..1];
    assert ParseAll(lines[..2], toFloat) == Parsed(f2);
  }

  lemma ActionLineExample(toFloat: string -> Option<real>)
    ensures ParseLine(DEFAULTS, "ACTION: SELL", toFloat) == Parsed(DEFAULTS.(action := "sell"))
  {
    ActionValueExample();
  }

  lemma AmountLineExample(f: Fields, toFloat: string -> Option<real>)
    requires toFloat("0.05") == Some(0.05)
    ensures ParseLine(f, "AMOUNT: 0.05 ETH", toFloat) == Parsed(f.(amount := 0.05))
  {
    assert !IsActionLine("AMOUNT: 0.05 ETH") by { assert "AMOUNT: 0.05 ETH"[1] != "ACTION:"[1]; }
    assert IsAmountLine("AMOUNT: 0.05 ETH");
    AmountTextExample();
  }

  lemma ReasonLineExample(f: Fields, toFloat: string -> Option<real>)
    ensures ParseLine(f, "REASON: fees", toFloat) == Parsed(f.(reason := "fees"))
  {
    assert !IsActionLine("REASON: fees") by { assert "REASON: fees"[0] != "ACTION:"[0]; }
    assert !IsAmountLine("REASON: fees") by { assert "REASON: fees"[0] != "AMOUNT:"[0]; }
    assert RemoveAll("REASON: fees", "REASON:") == " fees";
    assert StripLeft(" fees") == "fees";
  }
}
