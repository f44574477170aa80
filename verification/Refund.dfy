/**
 Attributing a KTMB refund to one ticket: from the raw ticket document, and from a refund policy.

 A decoded JSON object is a map without order. Where the program ranges over one, it takes the keys
 in an arbitrary order, a different one each time.
 */
module Refund {
  import opened Wrappers
  import opened Text

  /** A decoded JSON value; `Number` keeps what reading it as a float gives, if that succeeds. */
  datatype Json =
    | Null
    | Bool(b: bool)
    | Number(value: Option<real>)
    | Str(s: string)
    | Arr(items: seq<Json>)
    | Obj(fields: map<string, Json>)

  datatype Amount = Amount(value: real, currency: string)

  function NormalizeCurrency(first: string, second: string): string {
    var a := ToUpper(TrimSpace(first));
    var b := ToUpper(TrimSpace(second));
    if a != "" then a else if b != "" then b else "MYR"
  }

  // ---------------------------------------------------------------- one object

  function StringField(fields: map<string, Json>, key: string): string {
    if key in fields && fields[key].Str? then fields[key].s else ""
  }

  function PositiveField(fields: map<string, Json>, key: string): Option<real> {
    if key in fields && fields[key].Number? && fields[key].value.Some? && fields[key].value.value > 0.0
    then fields[key].value
    else None
  }

  /** The amount an object states itself, under the first of three names that carries a positive number. */
  function ExactRefund(fields: map<string, Json>): (r: Option<Amount>)
    ensures r.Some? ==> r.value.value > 0.0
  {
    var currency := NormalizeCurrency(StringField(fields, "refundCurrency"), StringField(fields, "currencyCode"));
    var refund := PositiveField(fields, "refundAmount");
    var refunded := PositiveField(fields, "refundedAmount");
    var total := PositiveField(fields, "totalRefundAmount");
    if refund.Some? then Some(Amount(refund.value, currency))
    else if refunded.Some? then Some(Amount(refunded.value, currency))
    else if total.Some? then Some(Amount(total.value, currency))
    else None
  }

  /** The field holds a positive number. */
  ghost predicate Holds(fields: map<string, Json>, key: string, amount: real) {
    key in fields && fields[key] == Number(Some(amount)) && amount > 0.0
  }

  ghost predicate HoldsNone(fields: map<string, Json>, key: string) {
    forall amount :: !Holds(fields, key, amount)
  }

  /** refundAmount wins over refundedAmount, that over totalRefundAmount, and each counts only when positive. */
  lemma {:induction false} ExactRefundMeans(fields: map<string, Json>, amount: real)
    ensures (ExactRefund(fields).Some? && ExactRefund(fields).value.value == amount) <==>
            || Holds(fields, "refundAmount", amount)
            || (HoldsNone(fields, "refundAmount") && Holds(fields, "refundedAmount", amount))
            || (HoldsNone(fields, "refundAmount") && HoldsNone(fields, "refundedAmount")
                && Holds(fields, "totalRefundAmount", amount))
    ensures ExactRefund(fields).Some? ==>
              IsCurrency(ExactRefund(fields).value.currency,
                         TextOf(fields, "refundCurrency"), TextOf(fields, "currencyCode"))
  {
    PositiveFieldMeans(fields, "refundAmount");
    PositiveFieldMeans(fields, "refundedAmount");
    PositiveFieldMeans(fields, "totalRefundAmount");
    NormalizeMeans(TextOf(fields, "refundCurrency"), TextOf(fields, "currencyCode"));
    hide Holds, HoldsNone, IsCurrency, NormalizeCurrency, PositiveField;
  }

  lemma PositiveFieldMeans(fields: map<string, Json>, key: string)
    ensures forall amount :: PositiveField(fields, key) == Some(amount) <==> Holds(fields, key, amount)
    ensures PositiveField(fields, key).None? <==> HoldsNone(fields, key)
  {
    if PositiveField(fields, key).Some? {
      assert Holds(fields, key, PositiveField(fields, key).value);
    }
  }

  /** A field's text, empty when it holds none. */
  ghost function TextOf(fields: map<string, Json>, key: string): string {
    if key in fields then match fields[key] { case Str(s) => s case _ => "" } else ""
  }

  /** The first of the two that is not blank, trimmed and in capitals; ringgit when both are. */
  ghost predicate IsCurrency(currency: string, first: string, second: string) {
    if TrimSpace(first) != "" then currency == ToUpper(TrimSpace(first))
    else if TrimSpace(second) != "" then currency == ToUpper(TrimSpace(second))
    else currency == "MYR"
  }

  lemma {:induction false} NormalizeMeans(first: string, second: string)
    ensures IsCurrency(NormalizeCurrency(first, second), first, second)
  {
    hide TrimSpace;
  }

  // ---------------------------------------------------------------- anywhere in the document

  /** x is the document or one of the values nested in it. */
  ghost predicate Within(x: Json, doc: Json)
    decreases doc
  {
    x == doc ||
    match doc
    case Arr(items) => exists i | 0 <= i < |items| :: Within(x, items[i])
    case Obj(fields) => exists k | k in fields :: Within(x, fields[k])
    case _ => false
  }

  /** An object that names the ticket. */
  ghost predicate IsTicket(x: Json, ticketNo: string) {
    x.Obj? && StringField(x.fields, "ticketNo") == ticketNo
  }

  /** An object with a ticketNo field of any kind. */
  ghost predicate IsTicketNode(x: Json) {
    x.Obj? && "ticketNo" in x.fields
  }

  ghost predicate States(x: Json, amount: Amount) {
    x.Obj? && ExactRefund(x.fields) == Some(amount)
  }

  /** Look for the amount in an object naming the ticket, outermost first. */
  method RefundInTicketNode(doc: Json, ticketNo: string) returns (r: Option<Amount>)
    ensures r.Some? ==> exists x :: Within(x, doc) && IsTicket(x, ticketNo) && States(x, r.value)
    ensures r.None? ==> forall x | Within(x, doc) && IsTicket(x, ticketNo) :: ExactRefund(x.fields).None?
    decreases doc
  {
    match doc
    case Obj(fields) => {
      if StringField(fields, "ticketNo") == ticketNo && ExactRefund(fields).Some? {
        assert Within(doc, doc) && States(doc, ExactRefund(fields).value);
        return ExactRefund(fields);
      }
      var keys := fields.Keys;
      while keys != {}
        invariant keys <= fields.Keys
        invariant forall k, x | k in fields && k !in keys && Within(x, fields[k]) && IsTicket(x, ticketNo) ::
                    ExactRefund(x.fields).None?
        decreases |keys|
      {
        var k :| k in keys;
        r := RefundInTicketNode(fields[k], ticketNo);
        if r.Some? {
          ghost var x :| Within(x, fields[k]) && IsTicket(x, ticketNo) && States(x, r.value);
          assert Within(x, doc);
          return;
        }
        keys := keys - {k};
      }
      r := None;
    }
    case Arr(items) => {
      for i := 0 to |items|
        invariant forall j, x | 0 <= j < i && Within(x, items[j]) && IsTicket(x, ticketNo) ::
                    ExactRefund(x.fields).None?
      {
        r := RefundInTicketNode(items[i], ticketNo);
        if r.Some? {
          ghost var x :| Within(x, items[i]) && IsTicket(x, ticketNo) && States(x, r.value);
          assert Within(x, doc);
          return;
        }
      }
      r := None;
    }
    case _ => r := None;
  }

  /** The same without asking for the ticket: any object that states an amount. */
  method ExactRefundInNode(doc: Json) returns (r: Option<Amount>)
    ensures r.Some? ==> exists x :: Within(x, doc) && States(x, r.value)
    ensures r.None? ==> forall x | Within(x, doc) && x.Obj? :: ExactRefund(x.fields).None?
    decreases doc
  {
    match doc
    case Obj(fields) => {
      if ExactRefund(fields).Some? {
        assert Within(doc, doc) && States(doc, ExactRefund(fields).value);
        return ExactRefund(fields);
      }
      var keys := fields.Keys;
      while keys != {}
        invariant keys <= fields.Keys
        invariant forall k, x | k in fields && k !in keys && Within(x, fields[k]) && x.Obj? ::
                    ExactRefund(x.fields).None?
        decreases |keys|
      {
        var k :| k in keys;
        r := ExactRefundInNode(fields[k]);
        if r.Some? {
          ghost var x :| Within(x, fields[k]) && States(x, r.value);
          assert Within(x, doc);
          return;
        }
        keys := keys - {k};
      }
      r := None;
    }
    case Arr(items) => {
      for i := 0 to |items|
        invariant forall j, x | 0 <= j < i && Within(x, items[j]) && x.Obj? :: ExactRefund(x.fields).None?
      {
        r := ExactRefundInNode(items[i]);
        if r.Some? {
          ghost var x :| Within(x, items[i]) && States(x, r.value);
          assert Within(x, doc);
          return;
        }
      }
      r := None;
    }
    case _ => r := None;
  }

  // ---------------------------------------------------------------- counting ticket nodes

  /** How many objects in the document carry a ticketNo field. */
  ghost function TicketNodes(doc: Json): nat
    decreases doc, 1, 0
  {
    match doc
    case Obj(fields) => (if IsTicketNode(doc) then 1 else 0) + NodesUnder(doc, fields.Keys)
    case Arr(items) => NodesIn(doc, |items|)
    case _ => 0
  }

  ghost function NodesUnder(doc: Json, keys: set<string>): nat
    requires doc.Obj? && keys <= doc.fields.Keys
    decreases doc, 0, |keys|
  {
    if keys == {} then 0
    else
      var k :| k in keys;
      TicketNodes(doc.fields[k]) + NodesUnder(doc, keys - {k})
  }

  ghost function NodesIn(doc: Json, n: nat): nat
    requires doc.Arr? && n <= |doc.items|
    decreases doc, 0, n
  {
    if n == 0 then 0 else NodesIn(doc, n - 1) + TicketNodes(doc.items[n - 1])
  }

  /** The sum does not depend on the order the keys are taken in. */
  lemma {:induction false} AnyKeyFirst(doc: Json, keys: set<string>, k: string)
    requires doc.Obj? && k in keys && keys <= doc.fields.Keys
    ensures NodesUnder(doc, keys) == TicketNodes(doc.fields[k]) + NodesUnder(doc, keys - {k})
    decreases |keys|
  {
    var first :| first in keys &&
      NodesUnder(doc, keys) == TicketNodes(doc.fields[first]) + NodesUnder(doc, keys - {first});
    if first != k {
      AnyKeyFirst(doc, keys - {first}, k);
      AnyKeyFirst(doc, keys - {k}, first);
      assert keys - {first} - {k} == keys - {k} - {first};
    }
  }

  method TicketNodeStats(doc: Json, ticketNo: string) returns (count: nat, found: bool)
    ensures count == TicketNodes(doc)
    ensures found <==> exists x :: Within(x, doc) && IsTicketNode(x) && IsTicket(x, ticketNo)
    decreases doc
  {
    count, found := 0, false;
    match doc
    case Obj(fields) => {
      if "ticketNo" in fields {
        count := 1;
        found := StringField(fields, "ticketNo") == ticketNo;
      }
      assert Within(doc, doc);
      var keys := fields.Keys;
      while keys != {}
        invariant keys <= fields.Keys
        invariant count + NodesUnder(doc, keys) == TicketNodes(doc)
        invariant found <==>
                  || (IsTicketNode(doc) && IsTicket(doc, ticketNo))
                  || exists k, x ::
                       k in fields && k !in keys && Within(x, fields[k]) && IsTicketNode(x) && IsTicket(x, ticketNo)
        decreases |keys|
      {
        var k :| k in keys;
        var childCount, childFound := TicketNodeStats(fields[k], ticketNo);
        AnyKeyFirst(doc, keys, k);
        count := count + childCount;
        found := found || childFound;
        keys := keys - {k};
      }
    }
    case Arr(items) => {
      for i := 0 to |items|
        invariant count == NodesIn(doc, i)
        invariant found <==>
                    exists j, x :: 0 <= j < i && Within(x, items[j]) && IsTicketNode(x) && IsTicket(x, ticketNo)
      {
        var childCount, childFound := TicketNodeStats(items[i], ticketNo);
        count := count + childCount;
        found := found || childFound;
      }
    }
    case _ =>
  }

  lemma {:induction false} PartOfNodesIn(doc: Json, n: nat, i: nat)
    requires doc.Arr? && i < n <= |doc.items|
    ensures NodesIn(doc, n) >= TicketNodes(doc.items[i])
    ensures forall j | 0 <= j < i :: NodesIn(doc, n) >= TicketNodes(doc.items[i]) + TicketNodes(doc.items[j])
  {
    if i < n - 1 {
      PartOfNodesIn(doc, n - 1, i);
    } else {
      forall j | 0 <= j < i
        ensures NodesIn(doc, n - 1) >= TicketNodes(doc.items[j])
      {
        PartOfNodesIn(doc, n - 1, j);
      }
    }
  }

  /** A ticket node somewhere in the document is counted. */
  lemma {:induction false} NodesAreCounted(doc: Json, x: Json)
    requires Within(x, doc) && IsTicketNode(x)
    ensures TicketNodes(doc) >= 1
    decreases doc
  {
    if x != doc {
      match doc
      case Arr(items) =>
        var i :| 0 <= i < |items| && Within(x, items[i]);
        NodesAreCounted(items[i], x);
        PartOfNodesIn(doc, |items|, i);
      case Obj(fields) =>
        var k :| k in fields && Within(x, fields[k]);
        NodesAreCounted(fields[k], x);
        AnyKeyFirst(doc, fields.Keys, k);
    }
  }

  /** What is counted is there. */
  lemma {:induction false} CountedIsThere(doc: Json) returns (x: Json)
    requires TicketNodes(doc) >= 1
    ensures Within(x, doc) && IsTicketNode(x)
    decreases doc, 1, 0
  {
    match doc
    case Arr(items) =>
      var n := |items|;
      while TicketNodes(items[n - 1]) == 0
        invariant 0 < n <= |items| && NodesIn(doc, n) >= 1
        decreases n
      {
        n := n - 1;
      }
      x := CountedIsThere(items[n - 1]);
    case Obj(fields) =>
      if IsTicketNode(doc) {
        x := doc;
      } else {
        x := CountedUnderKeys(doc, fields.Keys);
      }
  }

  lemma {:induction false} CountedUnderKeys(doc: Json, keys: set<string>) returns (x: Json)
    requires doc.Obj? && keys <= doc.fields.Keys && NodesUnder(doc, keys) >= 1
    ensures Within(x, doc) && IsTicketNode(x)
    decreases doc, 0, |keys|
  {
    var k :| k in keys && NodesUnder(doc, keys) == TicketNodes(doc.fields[k]) + NodesUnder(doc, keys - {k});
    if TicketNodes(doc.fields[k]) >= 1 {
      x := CountedIsThere(doc.fields[k]);
    } else {
      x := CountedUnderKeys(doc, keys - {k});
    }
  }

  /** With at most one counted, any two ticket nodes are the same. */
  lemma {:induction false} CountedOnceIsUnique(doc: Json, x: Json, y: Json)
    requires TicketNodes(doc) <= 1
    requires Within(x, doc) && IsTicketNode(x) && Within(y, doc) && IsTicketNode(y)
    ensures x == y
    decreases doc
  {
    match doc
    case Arr(items) =>
      var i :| 0 <= i < |items| && Within(x, items[i]);
      var j :| 0 <= j < |items| && Within(y, items[j]);
      NodesAreCounted(items[i], x);
      NodesAreCounted(items[j], y);
      PartOfNodesIn(doc, |items|, i);
      PartOfNodesIn(doc, |items|, j);
      CountedOnceIsUnique(items[i], x, y);
    case Obj(fields) =>
      if x != doc || y != doc {
        var k := KeyOf(doc, if x != doc then x else y);
        NodesAreCounted(fields[k], if x != doc then x else y);
        AnyKeyFirst(doc, fields.Keys, k);
        var l := KeyOf(doc, if y != doc then y else x);
        NodesAreCounted(fields[l], if y != doc then y else x);
        if k != l {
          AnyKeyFirst(doc, fields.Keys - {k}, l);
        }
        CountedOnceIsUnique(fields[k], x, y);
      }
    case _ =>
  }

  ghost function KeyOf(doc: Json, x: Json): (k: string)
    requires doc.Obj? && x != doc && Within(x, doc)
    ensures k in doc.fields && Within(x, doc.fields[k])
  {
    var k :| k in doc.fields && Within(x, doc.fields[k]);
    k
  }

  // ---------------------------------------------------------------- the document as a whole

  /** The document's only ticket node, if it has one, is this ticket. */
  ghost predicate OnlyThisTicket(doc: Json, ticketNo: string) {
    TicketNodes(doc) <= 1 && forall x | Within(x, doc) && IsTicketNode(x) :: IsTicket(x, ticketNo)
  }

  ghost predicate StatedByTicket(doc: Json, ticketNo: string, amount: Amount) {
    exists x :: Within(x, doc) && IsTicket(x, ticketNo) && States(x, amount)
  }

  ghost predicate StatedSomewhere(doc: Json, amount: Amount) {
    exists x :: Within(x, doc) && States(x, amount)
  }

  method RefundFromRaw(raw: Option<Json>, ticketNo: string) returns (r: Option<Amount>)
    requires ticketNo != ""
    // only a positive amount, stated by the ticket itself or by a document about no other ticket
    ensures r.Some? ==> raw.Some? && r.value.value > 0.0
    ensures r.Some? ==>
              || StatedByTicket(raw.value, ticketNo, r.value)
              || (OnlyThisTicket(raw.value, ticketNo) && StatedSomewhere(raw.value, r.value))
    // and nothing that may be used is missed
    ensures r.None? && raw.Some? ==>
              forall a :: !StatedByTicket(raw.value, ticketNo, a) &&
                          (OnlyThisTicket(raw.value, ticketNo) ==> !StatedSomewhere(raw.value, a))
  {
    if raw.None? {
      return None;
    }
    var root := raw.value;
    r := RefundInTicketNode(root, ticketNo);
    if r.Some? {
      return;
    }
    var count, found := TicketNodeStats(root, ticketNo);
    if count > 1 || (count > 0 && !found) {
      ghost var counted := CountedIsThere(root);
      assert Within(counted, root);
      return None;
    }
    assert OnlyThisTicket(root, ticketNo) by {
      forall x | Within(x, root) && IsTicketNode(x)
        ensures IsTicket(x, ticketNo)
      {
        NodesAreCounted(root, x);
        var y :| Within(y, root) && IsTicketNode(y) && IsTicket(y, ticketNo);
        CountedOnceIsUnique(root, x, y);
      }
    }
    r := ExactRefundInNode(root);
  }
}
