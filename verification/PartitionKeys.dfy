/**
 Log partition keys and the read scope assembled from them. Keys are strings,
 because what has to be shown is about their spelling: keys of different owners
 never coincide, and a joined scope can only be read back one way.
 */
module PartitionKeys {
  import opened Wrappers
  import opened ConnectorKinds

  const MAX_PARTITIONS_PER_SCOPE: nat := 10

  predicate Alphanumeric(c: char) {
    'a' <= c <= 'z' || '0' <= c <= '9'
  }

  predicate KeyChar(c: char) {
    Alphanumeric(c) || c == '-'
  }

  predicate Hex(c: char) {
    'a' <= c <= 'f' || '0' <= c <= '9'
  }

  predicate IsValidAgentLogId(id: string) {
    1 <= |id| <= 100 && forall c | c in id :: KeyChar(c)
  }

  /** The pairing the uniqueness hash is taken over. */
  function BindingKey(kind: ConnectorType, id: string): Option<string> {
    if IsValidAgentLogId(id) then Some(Name(kind) + ":" + id) else None
  }

  function AgentPartitionKey(kind: ConnectorType, id: string): Option<string> {
    if IsValidAgentLogId(id) then Some("a-" + Name(kind) + "-" + id) else None
  }

  /** A lower-case UUID in its 8-4-4-4-12 spelling. */
  predicate IsCanonicalTenantId(id: string) {
    |id| == 36 && forall i | 0 <= i < 36 :: if i in {8, 13, 18, 23} then id[i] == '-' else Hex(id[i])
  }

  function TenantPartitionKey(tenant: string): Option<string> {
    if IsCanonicalTenantId(tenant) then Some("t-" + tenant) else None
  }

  predicate IsSafePartitionKey(key: string) {
    1 <= |key| <= 149 && Alphanumeric(key[0]) && forall c | c in key :: KeyChar(c)
  }

  // ---------------------------------------------------- keys do not collide

  lemma BindingKeysInjective(k1: ConnectorType, id1: string, k2: ConnectorType, id2: string)
    requires BindingKey(k1, id1).Some? && BindingKey(k1, id1) == BindingKey(k2, id2)
    ensures k1 == k2 && id1 == id2
  {
    var x, y := BindingKey(k1, id1).value, BindingKey(k2, id2).value;
    assert x[0] == Name(k1)[0] && y[0] == Name(k2)[0];
    assert id1 == x[|Name(k1)| + 1..] && id2 == y[|Name(k2)| + 1..];
  }

  /** An agent partition belongs to exactly one (connector type, identifier) pair. */
  lemma AgentKeysInjective(k1: ConnectorType, id1: string, k2: ConnectorType, id2: string)
    requires AgentPartitionKey(k1, id1).Some? && AgentPartitionKey(k1, id1) == AgentPartitionKey(k2, id2)
    ensures k1 == k2 && id1 == id2
  {
    var x, y := AgentPartitionKey(k1, id1).value, AgentPartitionKey(k2, id2).value;
    assert x[2] == Name(k1)[0] && y[2] == Name(k2)[0];
    assert id1 == x[|Name(k1)| + 3..] && id2 == y[|Name(k2)| + 3..];
  }

  lemma TenantKeysInjective(t1: string, t2: string)
    requires TenantPartitionKey(t1).Some? && TenantPartitionKey(t1) == TenantPartitionKey(t2)
    ensures t1 == t2
  {
    assert t1 == TenantPartitionKey(t1).value[2..] && t2 == TenantPartitionKey(t2).value[2..];
  }

  /** The two namespaces never meet. */
  lemma NamespacesDisjoint(tenant: string, kind: ConnectorType, id: string)
    requires TenantPartitionKey(tenant).Some? && AgentPartitionKey(kind, id).Some?
    ensures TenantPartitionKey(tenant) != AgentPartitionKey(kind, id)
  {
    assert TenantPartitionKey(tenant).value[0] == 't' && AgentPartitionKey(kind, id).value[0] == 'a';
  }

  /** Every key either side derives passes the guard in front of the scope header. */
  lemma DerivedKeysAreSafe(tenant: string, kind: ConnectorType, id: string)
    ensures TenantPartitionKey(tenant).Some? ==> IsSafePartitionKey(TenantPartitionKey(tenant).value)
    ensures AgentPartitionKey(kind, id).Some? ==> IsSafePartitionKey(AgentPartitionKey(kind, id).value)
  {
    if IsCanonicalTenantId(tenant) {
      forall c | c in tenant ensures KeyChar(c) {
        var i :| 0 <= i < 36 && tenant[i] == c;
      }
    }
  }

  // ---------------------------------------------------------------- scopes

  /** `[...new Set(keys)]`: first occurrences, in order. */
  function Distinct(keys: seq<string>): (r: seq<string>)
    ensures forall k :: k in r <==> k in keys
    ensures forall i, j | 0 <= i < j < |r| :: r[i] != r[j]
  {
    if keys == [] then []
    else
      var init, last := keys[..|keys| - 1], keys[|keys| - 1];
      var r := Distinct(init);
      assert keys == init + [last];
      if last in r then r else r + [last]
  }

  function Join(keys: seq<string>): string
    requires keys != []
  {
    if |keys| == 1 then keys[0] else keys[0] + "|" + Join(keys[1..])
  }

  /** How the log store reads a scope header. */
  function Split(scope: string): (parts: seq<string>)
    ensures parts != []
  {
    if scope == "" then [""]
    else if scope[0] == '|' then [""] + Split(scope[1..])
    else
      var rest := Split(scope[1..]);
      [[scope[0]] + rest[0]] + rest[1..]
  }

  lemma {:induction false} SplitOne(key: string)
    requires '|' !in key
    ensures Split(key) == [key]
  {
    if key != "" {
      SplitOne(key[1..]);
      assert [key[0]] + key[1..] == key;
    }
  }

  lemma {:induction false} SplitAtBar(key: string, rest: string)
    requires '|' !in key
    ensures Split(key + "|" + rest) == [key] + Split(rest)
  {
    if key == "" {
      assert key + "|" + rest == "|" + rest;
    } else {
      assert (key + "|" + rest)[1..] == key[1..] + "|" + rest;
      SplitAtBar(key[1..], rest);
      assert [key[0]] + key[1..] == key;
    }
  }

  lemma {:induction false} SplitUndoesJoin(keys: seq<string>)
    requires keys != [] && forall k | k in keys :: '|' !in k
    ensures Split(Join(keys)) == keys
  {
    if |keys| == 1 {
      SplitOne(keys[0]);
      assert keys == [keys[0]];
    } else {
      SplitUndoesJoin(keys[1..]);
      SplitAtBar(keys[0], Join(keys[1..]));
      assert keys == [keys[0]] + keys[1..];
    }
  }

  datatype Denial = RateLimited | ResolutionFailed | NotCanonical | BoundExceeded

  /** The scope for one request; `agentKeys` is None when resolution threw. */
  function ResolveScope(tenant: string, withinRate: bool, agentKeys: Option<seq<string>>): Result<string, Denial> {
    if !withinRate then Err(RateLimited)
    else if agentKeys.None? || exists k :: k in agentKeys.value && !IsSafePartitionKey(k) then Err(ResolutionFailed)
    else if TenantPartitionKey(tenant).None? then Err(NotCanonical)
    else
      var partitions := [TenantPartitionKey(tenant).value] + Distinct(agentKeys.value);
      if |partitions| > MAX_PARTITIONS_PER_SCOPE then Err(BoundExceeded) else Ok(Join(partitions))
  }

  /**
   A granted scope reads back as exactly the tenant's own partition followed by
   each resolved agent partition once, and never as more than ten partitions.
   */
  lemma ScopeReadsBackExactly(tenant: string, agentKeys: seq<string>)
    requires ResolveScope(tenant, true, Some(agentKeys)).Ok?
    ensures var parts := Split(ResolveScope(tenant, true, Some(agentKeys)).value);
            && |parts| <= MAX_PARTITIONS_PER_SCOPE
            && Some(parts[0]) == TenantPartitionKey(tenant)
            && (forall k :: k in parts[1..] <==> k in agentKeys)
            && (forall i, j | 1 <= i < j < |parts| :: parts[i] != parts[j])
  {
    DerivedKeysAreSafe(tenant, Traction, "");
    var partitions := [TenantPartitionKey(tenant).value] + Distinct(agentKeys);
    forall k | k in partitions ensures '|' !in k {
      assert IsSafePartitionKey(k);
    }
    SplitUndoesJoin(partitions);
    assert partitions[1..] == Distinct(agentKeys);
  }
}
