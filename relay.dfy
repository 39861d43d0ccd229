/**
 * The relay server's own state: the day number fixed at start-up and the order
 * counter that every `/createOrder` request advances to build its order id.
 */
module Relay {
  import opened Wrappers
  import opened Decimal
  import opened DateFormatting
  import opened Gateway

  /** `parseInt(dateFormat('YYYYmmdd', now))`: the day stamp read back as a number. */
  function TodayNum(now: DateFields): (t: nat)
    ensures now.year >= 1000 && now.month < 100 && now.day < 100 ==>
      t == now.year * 10000 + now.month * 100 + now.day
  {
    YmdIsDigits(now);
    if now.year >= 1000 && now.month < 100 && now.day < 100 then
      YmdAsNumber(now);
      ParseDecimal(Format("YYYYmmdd", now))
    else
      ParseDecimal(Format("YYYYmmdd", now))
  }

  /**
   * The order id `${todayNum}${orderNum}`: the day number, then the counter,
   * with no separator. It is all digits, and what follows the day number reads
   * back as the counter.
   */
  function OrderId(today: nat, counter: nat): (id: string)
    ensures AllDigits(id)
    ensures |NatToString(today)| < |id| && id[..|NatToString(today)|] == NatToString(today)
    ensures ParseDecimal(id[|NatToString(today)|..]) == counter
  {
    DigitsConcat(NatToString(today), NatToString(counter));
    ParseNatToString(counter);
    assert (NatToString(today) + NatToString(counter))[|NatToString(today)|..] == NatToString(counter);
    NatToString(today) + NatToString(counter)
  }

  /** Under one day number, an id determines its counter: ids of different counters differ. */
  lemma OrderIdInjective(today: nat, a: nat, b: nat)
    requires OrderId(today, a) == OrderId(today, b)
    ensures a == b
  {
    var prefix := NatToString(today);
    assert NatToString(a) == OrderId(today, a)[|prefix|..];
    assert NatToString(b) == OrderId(today, b)[|prefix|..];
    NatToStringInjective(a, b);
  }

  /** Under one day number, different counters give different ids. */
  lemma OrderIdDistinct(today: nat, a: nat, b: nat)
    requires a != b
    ensures OrderId(today, a) != OrderId(today, b)
  {
    if OrderId(today, a) == OrderId(today, b) {
      OrderIdInjective(today, a, b);
    }
  }

  /**
   * The ids issued by the first `count` order requests, oldest first. The
   * counter starts at 1 and is incremented before it is used, so the counters
   * they carry are 2, 3, ..., count + 1.
   */
  function IssuedIds(today: nat, count: nat): (ids: seq<string>)
    ensures |ids| == count
    ensures forall i :: 0 <= i < count ==> ids[i] == OrderId(today, i + 2)
  {
    if count == 0 then [] else IssuedIds(today, count - 1) + [OrderId(today, count + 1)]
  }

  /** No two requests of one server are given the same order id. */
  lemma IssuedIdsDistinct(today: nat, count: nat)
    ensures forall i, j :: 0 <= i < j < count ==> IssuedIds(today, count)[i] != IssuedIds(today, count)[j]
  {
    var ids := IssuedIds(today, count);
    forall i, j | 0 <= i < j < count
      ensures ids[i] != ids[j]
    {
      OrderIdDistinct(today, i + 2, j + 2);
    }
  }

  /**
   * Every issued id is the day number's text followed by the decimal text of
   * its counter, and the counters read back from the ids strictly increase.
   */
  lemma IssuedIdShape(today: nat, count: nat, i: nat)
    requires i < count
    ensures var id, prefix := IssuedIds(today, count)[i], NatToString(today);
      && |prefix| < |id|
      && id[..|prefix|] == prefix
      && AllDigits(id[|prefix|..])
      && ParseDecimal(id[|prefix|..]) == i + 2
  {
    var id, prefix := IssuedIds(today, count)[i], NatToString(today);
    assert id[|prefix|..] == NatToString(i + 2);
    ParseNatToString(i + 2);
  }

  /** The first id a server hands out ends in 2, not 1. */
  lemma FirstIdEndsInTwo(today: nat)
    ensures IssuedIds(today, 1) == [NatToString(today) + "2"]
  {
    assert NatToString(2) == "2";
  }

  /** What `/createOrder` reads from its JSON body; any `params` in the body is not forwarded. */
  datatype OrderInput = OrderInput(name: string, desc: string, amount: real, snapshot: Option<string>)

  /** The state `createTestServer` keeps across requests. */
  class RelayServer {
    /** `todayNum`: the day stamp read as a number, fixed when the server starts. */
    const todayNum: nat
    /** `orderNum`: the order counter. */
    var orderNum: nat
    /** The order ids sent to the gateway so far, oldest first. */
    ghost var issued: seq<string>

    ghost predicate Valid()
      reads this
    {
      orderNum >= 1 && issued == IssuedIds(todayNum, orderNum - 1)
    }

    /**
     * Server start-up: `todayNum` is `parseInt(dateFormat('YYYYmmdd', now))` and
     * the counter starts at 1, with nothing issued yet.
     */
    constructor (now: DateFields)
      ensures Valid() && orderNum == 1 && issued == []
      ensures todayNum == TodayNum(now)
    {
      var stamp := DateFormat("YYYYmmdd", now);
      YmdIsDigits(now);
      todayNum := ParseDecimal(stamp);
      orderNum := 1;
      issued := [];
    }

    /**
     * The `/createOrder` route: the counter is incremented first, then the id
     * `${todayNum}${orderNum}` is posted to the gateway with the order's fields.
     * The counter advances whatever the gateway does, and the reply is always
     * `{status: true}` with the payment-page address ('' if the request failed).
     */
    method CreateOrder(order: OrderInput, gateway: Outcome<PayResult>) returns (sent: PayRequest, reply: Reply)
      requires Valid()
      modifies this
      ensures Valid()
      ensures orderNum == old(orderNum) + 1
      ensures sent.orderid == OrderId(todayNum, orderNum)
      ensures issued == old(issued) + [sent.orderid]
      ensures sent == PayRequestBody(order.name, order.desc, order.amount, sent.orderid, order.snapshot, None)
      ensures reply == CreateOrderRoute(gateway)
    {
      orderNum := orderNum + 1;
      var orderid := NatToString(todayNum) + NatToString(orderNum);
      sent := PayRequestBody(order.name, order.desc, order.amount, orderid, order.snapshot, None);
      reply := CreateOrderReply(RequestPay(gateway));
      issued := issued + [orderid];
    }
  }

  /**
   * A server started at `now` handling three orders, with the gateway down for
   * the first: that order still answers `{status: true, data: ''}` and consumes
   * a counter, and the three ids are distinct and carry counters 2, 3 and 4
   * behind the day number.
   */
  method ThreeOrders(now: DateFields, order: OrderInput, result: PayResult) returns (ids: seq<string>)
    ensures |ids| == 3
    ensures forall i, j :: 0 <= i < j < 3 ==> ids[i] != ids[j]
    ensures forall i :: 0 <= i < 3 ==> ids[i] == OrderId(TodayNum(now), i + 2)
  {
    var server := new RelayServer(now);
    var sent1, reply1 := server.CreateOrder(order, Failed);
    assert reply1 == Json(true, Some(Text("")));
    var sent2, reply2 := server.CreateOrder(order, Responded(result));
    var sent3, reply3 := server.CreateOrder(order, Responded(result));
    ids := [sent1.orderid, sent2.orderid, sent3.orderid];
    assert server.issued == ids;
    IssuedIdsDistinct(server.todayNum, 3);
  }
}
