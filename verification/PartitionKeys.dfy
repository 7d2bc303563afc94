/** Partition keys: the "topic:partition" strings that name a partition. */
module PartitionKeys {
  import opened Common

  function Digit(d: nat): char
    requires d < 10
  {
    (0x30 + d) as char
  }

  predicate IsDigit(c: char) { '0' <= c <= '9' }

  function Decimal(n: nat): string {
    if n < 10 then [Digit(n)] else Decimal(n / 10) + [Digit(n % 10)]
  }

  /** The %d verb. */
  function FormatInt(n: int): string {
    if n < 0 then "-" + Decimal(-n) else Decimal(n)
  }

  function PartitionKey(topic: string, partition: int): string {
    topic + ":" + FormatInt(partition)
  }

  function ParseDigits(s: string): Option<int> {
    if s == "" then None
    else
      var last := s[|s| - 1];
      if !IsDigit(last) then None
      else
        var d := last as int - 0x30;
        if |s| == 1 then Some(d)
        else match ParseDigits(s[..|s| - 1])
          case None => None
          case Some(high) => Some(10 * high + d)
  }

  function ParseSigned(s: string): Option<int> {
    if s != "" && s[0] == '-' then
      (match ParseDigits(s[1..]) case None => None case Some(n) => Some(-n))
    else if s != "" && s[0] == '+' then
      (match ParseDigits(s[1..]) case None => None case Some(n) => Some(n))
    else
      (match ParseDigits(s) case None => None case Some(n) => Some(n))
  }

  predicate IsInt64(n: int) { -0x8000_0000_0000_0000 <= n < 0x8000_0000_0000_0000 }

  /** strconv.Atoi: optional sign, decimal digits, rejected outside the int range. */
  function Atoi(s: string): Option<int> {
    match ParseSigned(s)
    case None => None
    case Some(n) => if IsInt64(n) then Some(n) else None
  }

  /** Position of the first colon, or the length when there is none. */
  function FirstColon(s: string): (i: nat)
    ensures i <= |s| && forall k :: 0 <= k < i ==> s[k] != ':'
    ensures i < |s| ==> s[i] == ':'
  {
    if s == "" || s[0] == ':' then 0 else 1 + FirstColon(s[1..])
  }

  function ParsePartitionKey(key: string): (string, int) {
    var i := FirstColon(key);
    if i == |key| then ("", 0)
    else match Atoi(key[i + 1..])
      case None => ("", 0)
      case Some(n) => (key[..i], n)
  }

  lemma {:induction false} DecimalParses(n: nat)
    ensures ParseDigits(Decimal(n)) == Some(n)
    ensures forall c :: c in Decimal(n) ==> IsDigit(c)
    ensures Decimal(n) != ""
  {
    if n >= 10 {
      DecimalParses(n / 10);
      var s := Decimal(n);
      assert s[..|s| - 1] == Decimal(n / 10);
    }
  }

  lemma FormatIntParses(n: int)
    ensures ParseSigned(FormatInt(n)) == Some(n)
    ensures ':' !in FormatInt(n)
  {
    hide Decimal, ParseDigits;
    if n < 0 {
      DecimalParses(-n);
      assert FormatInt(n)[1..] == Decimal(-n);
    } else {
      DecimalParses(n);
      assert IsDigit(Decimal(n)[0]);
    }
  }

  /** Distinct topic-partitions never share a key, colons in the topic included. */
  lemma KeyInjective(t: string, p: int, u: string, q: int)
    requires PartitionKey(t, p) == PartitionKey(u, q)
    ensures t == u && p == q
  {
    FormatIntParses(p);
    FormatIntParses(q);
    TopicNotLonger(t, p, u, q);
    TopicNotLonger(u, q, t, p);
    var key := PartitionKey(t, p);
    assert key[..|t|] == t && key[..|u|] == u;
    assert key[|t| + 1..] == FormatInt(p) && key[|u| + 1..] == FormatInt(q);
  }

  lemma TopicNotLonger(t: string, p: int, u: string, q: int)
    requires PartitionKey(t, p) == PartitionKey(u, q)
    ensures |u| <= |t|
  {
    FormatIntParses(p);
    var key := PartitionKey(t, p);
    assert key[|u|] == ':';
    assert forall i :: |t| < i < |key| ==> key[i] == FormatInt(p)[i - |t| - 1];
  }

  /** parsePartitionKey inverts PartitionKey on the colon-free topics and on no others. */
  lemma ParseInvertsKey(topic: string, partition: int)
    requires IsInt64(partition)
    ensures ParsePartitionKey(PartitionKey(topic, partition)) == (topic, partition) <==> ':' !in topic
  {
    var key := PartitionKey(topic, partition);
    var i := FirstColon(key);
    FormatIntParses(partition);
    assert key[|topic|] == ':';
    assert i <= |topic|;
    assert key[..i] == topic[..i];
    assert forall k :: 0 <= k < |topic| ==> key[k] == topic[k];
    if ':' !in topic {
      assert i == |topic|;
      assert topic[..i] == topic;
      assert key[i + 1..] == FormatInt(partition);
    } else {
      var j :| 0 <= j < |topic| && topic[j] == ':';
      assert key[j] == ':';
      assert i <= j;
    }
  }

  /** A topic with a colon in it comes back as the empty topic's partition 0. */
  lemma ColonTopicMisparsed()
    ensures ParsePartitionKey(PartitionKey("a:b", 0)) == ("", 0)
  {
    var key := PartitionKey("a:b", 0);
    assert key == "a:b:0";
    assert FirstColon(key) == 1 by {
      assert key[1..][0] == ':';
    }
    assert key[2..] == "b:0";
    assert "b:0"[..2] == "b:";
    assert ParseDigits("b:") == None;
  }
}
