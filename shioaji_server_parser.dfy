/** The trade-record parser of the shioaji MCP server (server/shioaji-server/parser.py).
    `Parser(trade_info)` only stores the record and two key lists, so each method is
    a function of the record. */
module ShioajiServerParser {
  import opened Wrappers
  import opened Values

  /** `self.contract_keys`. */
  const ContractKeys: seq<string> := ["exchange", "code", "name", "unit", "reference"]

  /** `self.status_keys`. */
  const StatusKeys: seq<string> := ["status", "msg"]

  /** `parse_contract`: the items of `trade_info["contract"]` whose key is a contract key. */
  function ParseContract(tradeInfo: Json): (r: Result<Dict, AccessError>)
    ensures r.Success? <==> Subscript(tradeInfo, "contract").Success? && Subscript(tradeInfo, "contract").value.JObj?
    ensures r.Success? ==>
              var contract := Subscript(tradeInfo, "contract").value.fields;
              && (forall k :: HasKey(r.value, k) <==> HasKey(contract, k) && k in ContractKeys)
              && (forall k :: k in ContractKeys ==> Get(r.value, k) == Get(contract, k))
              && Subsequence(r.value, contract)
              && (DistinctKeys(contract) ==> |r.value| <= 5)
    ensures r.Success? ==> FilterKeys(r.value, ContractKeys) == r.value
  {
    FilterSection(tradeInfo, "contract", ContractKeys)
  }

  /** `parse_order` is `pass`: it returns `None` whatever the record holds. */
  function ParseOrder(tradeInfo: Json): (r: Option<Dict>)
    ensures r.None?
  {
    None
  }

  /** `parse_status`: the items of `trade_info["status"]` whose key is `status` or `msg`. */
  function ParseStatus(tradeInfo: Json): (r: Result<Dict, AccessError>)
    ensures r.Success? <==> Subscript(tradeInfo, "status").Success? && Subscript(tradeInfo, "status").value.JObj?
    ensures r.Success? ==>
              var status := Subscript(tradeInfo, "status").value.fields;
              && (forall k :: HasKey(r.value, k) <==> HasKey(status, k) && k in StatusKeys)
              && (forall k :: k in StatusKeys ==> Get(r.value, k) == Get(status, k))
              && Subsequence(r.value, status)
              && (DistinctKeys(status) ==> |r.value| <= 2)
    ensures r.Success? ==> FilterKeys(r.value, StatusKeys) == r.value
  {
    FilterSection(tradeInfo, "status", StatusKeys)
  }

  /** A contract record that carries all of its fields is cut down to the five listed ones. */
  lemma ParseContractExample()
    ensures ParseContract(JObj([("contract", JObj([("code", JStr("2330")), ("limit_up", JFloat(1045.0)),
                                                   ("name", JStr("TSMC"))]))]))
            == Success([("code", JStr("2330")), ("name", JStr("TSMC"))])
  {
    var d := [("code", JStr("2330")), ("limit_up", JFloat(1045.0)), ("name", JStr("TSMC"))];
    assert ContractKeys[1] == "code" && ContractKeys[2] == "name";
    assert "limit_up" !in ContractKeys;
    assert d[1..][1..] == [("name", JStr("TSMC"))];
    assert FilterKeys(d, ContractKeys) == [("code", JStr("2330")), ("name", JStr("TSMC"))];
  }
}
