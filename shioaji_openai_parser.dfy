/** The trade-record parser of the OpenAI-agents shioaji server (src/shioaji-mcp-openai/parser.py). */
module ShioajiOpenAIParser {
  import opened Wrappers
  import opened Values

  /** `self.order_keys`. */
  const OrderKeys: seq<string> := ["action", "price", "quantity"]

  /** `self.status_keys`. */
  const StatusKeys: seq<string> := ["status", "msg"]

  /** `parse_order`: the items of `trade_info["order"]` whose key is an order key. */
  function ParseOrder(tradeInfo: Json): (r: Result<Dict, AccessError>)
    ensures r.Success? <==> Subscript(tradeInfo, "order").Success? && Subscript(tradeInfo, "order").value.JObj?
    ensures r.Success? ==>
              var order := Subscript(tradeInfo, "order").value.fields;
              && (forall k :: HasKey(r.value, k) <==> HasKey(order, k) && k in OrderKeys)
              && (forall k :: k in OrderKeys ==> Get(r.value, k) == Get(order, k))
              && Subsequence(r.value, order)
              && (DistinctKeys(order) ==> |r.value| <= 3)
    ensures r.Success? ==> FilterKeys(r.value, OrderKeys) == r.value
  {
    FilterSection(tradeInfo, "order", OrderKeys)
  }

  /** `parse_status`: the items of `trade_info["status"]` whose key is `status` or `msg`. */
  function ParseStatus(tradeInfo: Json): (r: Result<Dict, AccessError>)
    ensures r.Success? <==> Subscript(tradeInfo, "status").Success? && Subscript(tradeInfo, "status").value.JObj?
    ensures r.Success? ==>
              var status := Subscript(tradeInfo, "status").value.fields;
              && (forall k :: HasKey(r.value, k) <==> HasKey(status, k) && k in StatusKeys)
              && (forall k :: k in StatusKeys ==> Get(r.value, k) == Get(status, k))
              && Subsequence(r.value, status)
              && (DistinctKeys(status) ==> |r.value| <= 2)
    ensures r.Success? ==> FilterKeys(r.value, StatusKeys) == r.value
  {
    FilterSection(tradeInfo, "status", StatusKeys)
  }

  /** A record without an `order` entry makes `parse_order` raise `KeyError('order')`. */
  lemma ParseOrderMissingSection(status: Dict)
    ensures ParseOrder(JObj([("status", JObj(status))])) == Failure(KeyError("order"))
  {
  }
}
