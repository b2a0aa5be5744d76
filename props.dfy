/** `parseMsgProps`: the translation of a caller's property bag into calls on
    a fresh `MessageProperties` builder (identical in lib/index.ts and
    lib/topicClient.ts). */
module Props {
  import opened Sdk

  /** The keys that get a builder method of their own. */
  const Reserved: set<string> := {"sdTime", "tciTime", "key"}

  /** The builder call made for one key/value pair. */
  function PropCallFor(k: string, v: PropValue): (r: PropCall)
    ensures r.StartDeliverTime? <==> k == "sdTime"
    ensures r.TransCheckImmunityTime? <==> k == "tciTime"
    ensures r.MessageKey? <==> k == "key"
    ensures r.PutProperty? <==> k !in Reserved
    ensures KeyOf(r) == k && ValueOf(r) == v
  {
    if k == "sdTime" then StartDeliverTime(v)
    else if k == "tciTime" then TransCheckImmunityTime(v)
    else if k == "key" then MessageKey(v)
    else PutProperty(k, v)
  }

  /** The key a builder call stands for. */
  function KeyOf(c: PropCall): string
  {
    match c
    case StartDeliverTime(_) => "sdTime"
    case TransCheckImmunityTime(_) => "tciTime"
    case MessageKey(_) => "key"
    case PutProperty(k, _) => k
  }

  /** The value a builder call carries. */
  function ValueOf(c: PropCall): PropValue
  {
    match c
    case StartDeliverTime(v) => v
    case TransCheckImmunityTime(v) => v
    case MessageKey(v) => v
    case PutProperty(_, v) => v
  }

  /** The builder calls made for a whole bag, one per key, in bag order. */
  function PropCalls(props: PropBag): seq<PropCall>
  {
    if props == [] then []
    else PropCalls(props[..|props| - 1]) + [PropCallFor(props[|props| - 1].0, props[|props| - 1].1)]
  }

  /** The bag a sequence of builder calls stands for. */
  function Unparse(calls: seq<PropCall>): (r: PropBag)
    ensures |r| == |calls|
  {
    if calls == [] then []
    else Unparse(calls[..|calls| - 1]) + [(KeyOf(calls[|calls| - 1]), ValueOf(calls[|calls| - 1]))]
  }

  /** Exactly one builder call per key, each the one its key selects. */
  lemma {:induction false} PropCallsPointwise(props: PropBag)
    ensures |PropCalls(props)| == |props|
    ensures forall i :: 0 <= i < |props| ==> PropCalls(props)[i] == PropCallFor(props[i].0, props[i].1)
  {
    if props != [] {
      PropCallsPointwise(props[..|props| - 1]);
    }
  }

  /** No call is lost or invented: the calls give back the bag exactly. */
  lemma {:induction false} UnparsePropCalls(props: PropBag)
    ensures Unparse(PropCalls(props)) == props
  {
    if props != [] {
      var init := props[..|props| - 1];
      UnparsePropCalls(init);
      PropCallsPointwise(props);
      var calls := PropCalls(props);
      assert calls[..|calls| - 1] == PropCalls(init);
      assert props == init + [props[|props| - 1]];
    }
  }

  /** Distinct bags produce distinct call sequences. */
  lemma PropCallsInjective(a: PropBag, b: PropBag)
    requires PropCalls(a) == PropCalls(b)
    ensures a == b
  {
    UnparsePropCalls(a);
    UnparsePropCalls(b);
  }

  /** The loop of `parseMsgProps`: one builder call per key, in iteration
      order. */
  method ParseMsgProps(props: PropBag) returns (msgProps: seq<PropCall>)
    ensures |msgProps| == |props|
    ensures forall i :: 0 <= i < |props| ==> msgProps[i] == PropCallFor(props[i].0, props[i].1)
    ensures msgProps == PropCalls(props)
  {
    msgProps := [];
    var i := 0;
    while i < |props|
      invariant 0 <= i <= |props|
      invariant msgProps == PropCalls(props[..i])
    {
      var (k, v) := props[i];
      if k == "sdTime" {
        msgProps := msgProps + [StartDeliverTime(v)];
      } else if k == "tciTime" {
        msgProps := msgProps + [TransCheckImmunityTime(v)];
      } else if k == "key" {
        msgProps := msgProps + [MessageKey(v)];
      } else {
        msgProps := msgProps + [PutProperty(k, v)];
      }
      assert props[..i + 1][..i] == props[..i];
      i := i + 1;
    }
    assert props[..i] == props;
    PropCallsPointwise(props);
  }

  /** `props ? this.parseMsgProps(props) : null`. */
  function PropsArg(props: Option<PropBag>): (r: Option<seq<PropCall>>)
    ensures r.None? <==> props.None?
    ensures props.Some? ==> Unparse(r.value) == props.value
  {
    match props
    case None => None
    case Some(bag) =>
      UnparsePropCalls(bag);
      Some(PropCalls(bag))
  }

  /** The bag `{sdTime: T, tciTime: S, key: "k", custom: 5}` becomes exactly
      the four corresponding builder calls. */
  lemma FourKeyBag(t: int, s: int)
    ensures PropCalls([("sdTime", Num(t)), ("tciTime", Num(s)), ("key", Str("k")), ("custom", Num(5))])
         == [StartDeliverTime(Num(t)), TransCheckImmunityTime(Num(s)), MessageKey(Str("k")), PutProperty("custom", Num(5))]
  {
    var bag := [("sdTime", Num(t)), ("tciTime", Num(s)), ("key", Str("k")), ("custom", Num(5))];
    PropCallsPointwise(bag);
  }
}
