/** Audit findings and the key that follows one of them from scan to scan. */
module Findings {
  import opened Text

  datatype Resource = Resource(cluster: string, namespace: string, kind: string, name: string)

  datatype Remediation = Remediation(summary: string, kubectlEquivalent: string, autoFixTool: string, autoFixArgs: string)

  datatype Finding = Finding(ruleId: string, category: string, severity: string, resource: Resource, title: string,
                             impact: string, rootCause: string, remediation: Remediation, savings: real)

  predicate Autofixable(f: Finding) {
    f.remediation.autoFixTool != ""
  }

  function DedupKey(f: Finding): string {
    var r := f.resource;
    f.ruleId + "|" + r.cluster + "|" + r.namespace + "|" + r.kind + "|" + r.name
  }

  /** What the key is to identify. */
  function Identity(f: Finding): seq<string> {
    [f.ruleId, f.resource.cluster, f.resource.namespace, f.resource.kind, f.resource.name]
  }

  predicate BarFree(parts: seq<string>) {
    forall i :: 0 <= i < |parts| ==> '|' !in parts[i]
  }

  function WithIdentity(f: Finding, id: seq<string>): Finding
    requires |id| == 5
  {
    f.(ruleId := id[0], resource := Resource(id[1], id[2], id[3], id[4]))
  }

  lemma KeyIsJoin(f: Finding)
    ensures DedupKey(f) == Join(Identity(f), "|")
  {
    var r := f.resource;
    JoinMore(f.ruleId, [r.cluster, r.namespace, r.kind, r.name]);
    JoinMore(r.cluster, [r.namespace, r.kind, r.name]);
    JoinMore(r.namespace, [r.kind, r.name]);
    JoinMore(r.kind, [r.name]);
    hide Join;
    assert Identity(f) == [f.ruleId] + [r.cluster, r.namespace, r.kind, r.name];
    assert [r.cluster, r.namespace, r.kind, r.name] == [r.cluster] + [r.namespace, r.kind, r.name];
    assert [r.namespace, r.kind, r.name] == [r.namespace] + [r.kind, r.name];
    assert [r.kind, r.name] == [r.kind] + [r.name];
  }

  lemma JoinMore(x: string, rest: seq<string>)
    requires rest != []
    ensures Join([x] + rest, "|") == x + ("|" + Join(rest, "|"))
    ensures |rest| == 1 ==> Join(rest, "|") == rest[0]
  {
    assert ([x] + rest)[1..] == rest;
  }

  lemma {:induction false} PartCount(s: string)
    ensures |Split(s, '|')| == 1 <==> '|' !in s
  {
    if s != "" {
      PartCount(s[1..]);
    }
  }

  /** A joined text splits into at least its parts, and into no more exactly when no part holds the separator. */
  lemma {:induction false} JoinedPartCount(parts: seq<string>)
    requires parts != []
    ensures |Split(Join(parts, "|"), '|')| >= |parts|
    ensures |Split(Join(parts, "|"), '|')| == |parts| <==> BarFree(parts)
  {
    PartCount(parts[0]);
    if |parts| > 1 {
      JoinedPartCount(parts[1..]);
      SplitAtSeparator(parts[0], '|', Join(parts[1..], "|"));
      assert BarFree(parts) <==> '|' !in parts[0] && BarFree(parts[1..]) by {
        assert forall i :: 0 < i < |parts| ==> parts[i] == parts[1..][i - 1];
      }
    }
  }

  /** No other finding shares the key of f, exactly when the five parts that make up the key hold no bar. */
  lemma KeyIdentifies(f: Finding)
    ensures (forall g :: DedupKey(g) == DedupKey(f) ==> Identity(g) == Identity(f)) <==> BarFree(Identity(f))
  {
    if BarFree(Identity(f)) {
      forall g | DedupKey(g) == DedupKey(f) ensures Identity(g) == Identity(f) {
        SameKeySameIdentity(f, g);
      }
    } else {
      var g := Impostor(f);
    }
  }

  lemma SameKeySameIdentity(f: Finding, g: Finding)
    requires BarFree(Identity(f)) && DedupKey(g) == DedupKey(f)
    ensures Identity(g) == Identity(f)
  {
    KeyIsJoin(f);
    KeyIsJoin(g);
    JoinedPartCount(Identity(f));
    JoinedPartCount(Identity(g));
    SplitJoin(Identity(f), '|');
    SplitJoin(Identity(g), '|');
  }

  /** A bar inside a part can as well be the border to the next part. */
  lemma {:induction false} BarMoves(parts: seq<string>, i: nat, head: string, tail: string)
    requires i + 1 < |parts| && parts[i] == head + "|" + tail
    ensures Join(parts[i := head][i + 1 := tail + "|" + parts[i + 1]], "|") == Join(parts, "|")
  {
    var moved := parts[i := head][i + 1 := tail + "|" + parts[i + 1]];
    assert parts == [parts[0]] + parts[1..] && moved == [moved[0]] + moved[1..];
    JoinMore(parts[0], parts[1..]);
    JoinMore(moved[0], moved[1..]);
    if i > 0 {
      BarMoves(parts[1..], i - 1, head, tail);
      assert moved[1..] == parts[1..][i - 1 := head][i := tail + "|" + parts[1..][i]];
    } else {
      JoinPrefix(tail + "|", parts[1..]);
      assert moved[1..] == [tail + "|" + parts[1]] + parts[2..];
    }
  }

  lemma JoinPrefix(p: string, parts: seq<string>)
    requires parts != []
    ensures Join([p + parts[0]] + parts[1..], "|") == p + Join(parts, "|")
  {
    if |parts| > 1 {
      hide Join;
      var x, rest := parts[0], parts[1..];
      JoinMore(p + x, rest);
      JoinMore(x, rest);
      assert parts == [x] + rest;
      var t := "|" + Join(rest, "|");
      assert (p + x) + t == p + (x + t);
    }
  }

  lemma OtherParts(id: seq<string>, i: nat, head: string, tail: string) returns (id': seq<string>)
    requires |id| == 5 && i < 5 && id[i] == head + "|" + tail
    ensures |id'| == 5 && id' != id && Join(id', "|") == Join(id, "|")
  {
    hide Join;
    if i < 4 {
      id' := id[i := head][i + 1 := tail + "|" + id[i + 1]];
      BarMoves(id, i, head, tail);
      assert |id'[i]| < |id[i]|;
    } else {
      id' := id[3 := id[3] + "|" + head][4 := tail];
      BarMoves(id', 3, id[3], head);
      assert id'[3 := id[3]][4 := head + "|" + id'[4]] == id;
      assert |id'[4]| < |id[4]|;
    }
  }

  /** Moving a bar across the border of its part gives another finding with the same key. */
  lemma Impostor(f: Finding) returns (g: Finding)
    requires !BarFree(Identity(f))
    ensures DedupKey(g) == DedupKey(f) && Identity(g) != Identity(f)
  {
    hide DedupKey, Join;
    var id := Identity(f);
    var i :| 0 <= i < 5 && '|' in id[i];
    var k :| 0 <= k < |id[i]| && id[i][k] == '|';
    assert id[i] == id[i][..k] + "|" + id[i][k + 1..];
    var id' := OtherParts(id, i, id[i][..k], id[i][k + 1..]);
    g := WithIdentity(f, id');
    assert Identity(g) == id';
    KeyIsJoin(f);
    KeyIsJoin(g);
  }
}
