/**
 * `buildCard`: the Adaptive Card that summarises an order. The card is a
 * value: a schema URL, a version, five text blocks and three submit actions.
 */
module Cards {
  import opened Wrappers
  import opened Text
  import opened Orders

  /** A TextBlock element; `wrap == false` stands for a block without the property. */
  datatype TextBlock = TextBlock(text: string, weight: Option<string>, size: Option<string>, wrap: bool)

  /** An Action.Submit button and the discriminator its `data.action` carries. */
  datatype SubmitAction = SubmitAction(title: string, action: string)

  datatype Card = Card(schema: string, version: string, body: seq<TextBlock>, actions: seq<SubmitAction>)

  const SchemaUrl := "http://adaptivecards.io/schemas/adaptive-card.json"
  const CardVersion := "1.4"
  const NoPizzasText := "No pizzas added yet."
  const TitleBlock := TextBlock("Order Summary", Some("Bolder"), Some("Large"), false)

  const ConfirmAction := "confirm"
  const EditAction := "edit"
  const CancelAction := "cancel"
  const CardActions := [
    SubmitAction("Confirm", ConfirmAction),
    SubmitAction("Edit", EditAction),
    SubmitAction("Cancel", CancelAction)
  ]

  /** A wrapping TextBlock with no other styling. */
  function Paragraph(text: string): TextBlock {
    TextBlock(text, None, None, true)
  }

  /** `p.toppings && p.toppings.length`. */
  predicate HasToppings(p: Pizza) {
    p.toppings.Some? && p.toppings.value != []
  }

  /** The part of a pizza line that is always there: number, size, kind and a space. */
  function LineHead(number: nat, p: Pizza): string {
    NatToString(number) + ". " + p.size + " " + p.kind + " "
  }

  /**
   * The summary line of the pizza at 1-based position `number`. The space
   * after the kind is always written, so a pizza with neither crust nor
   * toppings ends in a space.
   */
  function PizzaLine(number: nat, p: Pizza): (r: string)
    ensures |NatToString(number)| + 2 <= |r| && r[..|NatToString(number)| + 2] == NatToString(number) + ". "
    ensures !Truthy(p.crust) && !HasToppings(p) ==> r == LineHead(number, p)
    ensures Truthy(p.crust) && !HasToppings(p) ==> r == LineHead(number, p) + "(" + p.crust.value + ")"
    ensures !Truthy(p.crust) && HasToppings(p) ==> r == LineHead(number, p) + " with " + Join(", ", p.toppings.value)
    ensures Truthy(p.crust) && HasToppings(p) ==>
      r == LineHead(number, p) + "(" + p.crust.value + ")" + " with " + Join(", ", p.toppings.value)
  {
    LineHead(number, p)
    + (if Truthy(p.crust) then "(" + p.crust.value + ")" else "")
    + (if HasToppings(p) then " with " + Join(", ", p.toppings.value) else "")
  }

  /** The lines of the summary: pizza `i` of the order is numbered `i + 1`. */
  function PizzaLines(ps: seq<Pizza>): (r: seq<string>)
    ensures |r| == |ps|
    ensures forall i :: 0 <= i < |ps| ==> r[i] == PizzaLine(i + 1, ps[i])
  {
    seq(|ps|, i requires 0 <= i < |ps| => PizzaLine(i + 1, ps[i]))
  }

  /**
   * The pizza summary: the lines joined by newlines. It is empty exactly
   * when there are no pizzas; otherwise it begins with the first pizza's
   * line, so with "1. ".
   */
  function Summary(ps: seq<Pizza>): (r: string)
    ensures r == "" <==> ps == []
    ensures ps != [] ==> |PizzaLine(1, ps[0])| <= |r| && r[..|PizzaLine(1, ps[0])|] == PizzaLine(1, ps[0])
    ensures ps != [] ==> |r| >= 3 && r[..3] == "1. "
  {
    var lines := PizzaLines(ps);
    assert NatToString(1) == "1";
    Join("\n", lines)
  }

  /** The text of a checkout field's block: labelled when the value is truthy, blank otherwise. */
  function FieldText(caption: string, v: Option<string>): (r: string)
    ensures !Truthy(v) ==> r == ""
    ensures Truthy(v) ==> r == caption + v.value
  {
    if Truthy(v) then caption + v.value else ""
  }

  /**
   * `pizzaSummary || 'No pizzas added yet.'`: the placeholder exactly when
   * there are no pizzas, the summary otherwise.
   */
  function SummaryText(ps: seq<Pizza>): (r: string)
    ensures r == NoPizzasText <==> ps == []
    ensures ps != [] ==> r == Summary(ps)
  {
    assert NoPizzasText[0] == 'N';
    if Summary(ps) != "" then Summary(ps) else NoPizzasText
  }

  /** The card `buildCard` renders for an order. */
  function BuildCard(o: Order): (r: Card)
    ensures r.schema == SchemaUrl && r.version == CardVersion
    ensures |r.body| == 5 && r.body[0] == TitleBlock
    ensures forall i :: 1 <= i < 5 ==> r.body[i].wrap && r.body[i].weight.None? && r.body[i].size.None?
    ensures r.body[1].text == NoPizzasText <==> o.pizzas == []
    ensures o.pizzas != [] ==> r.body[1].text == Summary(o.pizzas)
    ensures r.body[2].text == "" <==> !Truthy(o.name)
    ensures Truthy(o.name) ==> r.body[2].text == "Name: " + o.name.value
    ensures r.body[3].text == "" <==> !Truthy(o.address)
    ensures Truthy(o.address) ==> r.body[3].text == "Address: " + o.address.value
    ensures r.body[4].text == "" <==> !Truthy(o.payment)
    ensures Truthy(o.payment) ==> r.body[4].text == "Payment: " + o.payment.value
    ensures r.actions == CardActions
  {
    Card(
      SchemaUrl,
      CardVersion,
      [ TitleBlock,
        Paragraph(SummaryText(o.pizzas)),
        Paragraph(FieldText("Name: ", o.name)),
        Paragraph(FieldText("Address: ", o.address)),
        Paragraph(FieldText("Payment: ", o.payment)) ],
      CardActions)
  }

  /** Adding a pizza appends one line to the summary and leaves the earlier lines as they were. */
  lemma SummaryAppend(ps: seq<Pizza>, p: Pizza)
    ensures ps == [] ==> Summary(ps + [p]) == PizzaLine(1, p)
    ensures ps != [] ==> Summary(ps + [p]) == Summary(ps) + "\n" + PizzaLine(|ps| + 1, p)
  {
    assert PizzaLines(ps + [p]) == PizzaLines(ps) + [PizzaLine(|ps| + 1, p)];
    if ps != [] {
      JoinSnoc("\n", PizzaLines(ps), PizzaLine(|ps| + 1, p));
    }
  }

  /** No property of the pizza holds a line break. */
  predicate SingleLine(p: Pizza) {
    && '\n' !in p.kind && '\n' !in p.size
    && (p.crust.Some? ==> '\n' !in p.crust.value)
    && (p.toppings.Some? ==> forall j :: 0 <= j < |p.toppings.value| ==> '\n' !in p.toppings.value[j])
  }

  lemma PizzaLineSingle(number: nat, p: Pizza)
    requires SingleLine(p)
    ensures '\n' !in PizzaLine(number, p)
  {
    var digits := NatToString(number);
    assert forall i :: 0 <= i < |digits| ==> digits[i] != '\n';
    if HasToppings(p) {
      JoinFree(", ", p.toppings.value, '\n');
    }
  }

  /**
   * The summary has one line per pizza, in insertion order, and line `i`
   * (0-based) is the line of pizza `i` numbered `i + 1`.
   */
  lemma SummaryLines(ps: seq<Pizza>)
    requires ps != []
    requires forall i :: 0 <= i < |ps| ==> SingleLine(ps[i])
    ensures Split(Summary(ps), '\n') == PizzaLines(ps)
  {
    var lines := PizzaLines(ps);
    forall i | 0 <= i < |lines|
      ensures '\n' !in lines[i]
    {
      PizzaLineSingle(i + 1, ps[i]);
    }
    SplitJoin(lines, '\n');
  }

  /** Different lines of the summary carry different numbers, so no two lines are alike. */
  lemma DistinctLineNumbers(ps: seq<Pizza>, i: nat, j: nat)
    requires i < |ps| && j < |ps| && i != j
    ensures PizzaLines(ps)[i] != PizzaLines(ps)[j]
  {
    NatToStringInjective(i + 1, j + 1);
    DistinctNumbered(PizzaLines(ps)[i], NatToString(i + 1), PizzaLines(ps)[j], NatToString(j + 1));
  }

  /** Two texts that open with different digit strings, each followed by ". ", differ. */
  lemma DistinctNumbered(a: string, x: string, b: string, y: string)
    requires AllDigits(x) && AllDigits(y) && x != y
    requires |x| + 2 <= |a| && a[..|x| + 2] == x + ". "
    requires |y| + 2 <= |b| && b[..|y| + 2] == y + ". "
    ensures a != b
  {
    if |x| == |y| {
      assert a[..|x|] == x && b[..|y|] == y;
    } else if |x| < |y| {
      assert a[|x|] == '.' && b[|x|] == y[|x|];
    } else {
      assert b[|y|] == '.' && a[|y|] == x[|y|];
    }
  }

  /** The number on line `i` of the summary reads back as `i + 1`. */
  lemma LineNumberReadsBack(ps: seq<Pizza>, i: nat)
    requires i < |ps|
    ensures var line := PizzaLines(ps)[i]; var k := |NatToString(i + 1)|;
      k < |line| && AllDigits(line[..k]) && DecimalValue(line[..k]) == i + 1
  {
    var line := PizzaLines(ps)[i];
    var k := |NatToString(i + 1)|;
    assert line[..k] == NatToString(i + 1);
    DecimalRoundTrip(i + 1);
  }

  /**
   * One large pepperoni with neither crust nor toppings, checked out by Alice:
   * the order is "preparing" and the card shows its line (ending in the space
   * after the type) and the three checkout fields.
   */
  lemma CheckoutCardExample()
    ensures var o := CheckedOut(WithPizza(EmptyOrder, NewPizza("pepperoni", "large", None, None)),
                                "Alice", Some("1 Main St"), Some("card"));
      var card := BuildCard(o);
      && o.status == Some(Preparing)
      && card.body[1].text == "1. large pepperoni "
      && card.body[2].text == "Name: Alice"
      && card.body[3].text == "Address: 1 Main St"
      && card.body[4].text == "Payment: card"
  {
    var p := NewPizza("pepperoni", "large", None, None);
    var o := CheckedOut(WithPizza(EmptyOrder, p), "Alice", Some("1 Main St"), Some("card"));
    assert o.pizzas == [p];
    assert NatToString(1) == "1";
    assert LineHead(1, p) == "1. large pepperoni ";
    assert PizzaLines([p]) == [PizzaLine(1, p)];
    assert Summary([p]) == "1. large pepperoni ";
  }
}
