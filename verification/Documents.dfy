/** Parsed YAML documents and the `rules` list they carry. */
module Documents {
  import opened Prelude

  /** A YAML value below the top level of a document. */
  datatype Value =
    | Null
    | Bool(b: bool)
    | Num(n: int)
    | Str(s: string)
    | Seq(items: seq<Value>)
    | Dict(fields: map<string, Value>)

  /** The top-level keys that the service reads or writes by name; all others are `Other`. */
  datatype Key =
    | Mode | MixedPort | SocksPort | HttpPort | ExternalController
    | RedirPort | TproxyPort | LogLevel | Dns | Tun
    | Rules | RuleProviders | Proxies | ProxyGroups | ProxyProviders
    | AllowLan | BindAddress
    | Other(name: string)

  /** A file's content: normally a mapping, but any YAML value can be at the top, or the text is no YAML. */
  datatype Document = Mapping(entries: map<Key, Value>) | Bare(value: Value) | Unparsable {
    /** The entry under `k`; `None` when it is missing or the document is no mapping. */
    function Get(k: Key): Option<Value> {
      if Mapping? && k in entries then Some(entries[k]) else None
    }

    /** Insert an entry; a document that is no mapping is left alone. */
    function With(k: Key, v: Value): Document {
      if Mapping? then Mapping(entries[k := v]) else this
    }

    /** Remove an entry; a document that is no mapping is left alone. */
    function Drop(k: Key): Document {
      if Mapping? then Mapping(entries - {k}) else this
    }
  }

  /** The document written when no config file exists yet: `mode: rule`. */
  const DEFAULT_CONFIG := Mapping(map[Mode := Str("rule")])

  /** The string entries of a list, in order; other entries are skipped. */
  function Strings(vs: seq<Value>): seq<string> {
    if vs == [] then []
    else (if vs[0].Str? then [vs[0].s] else []) + Strings(vs[1..])
  }

  /** A list of strings as YAML values. */
  function FromStrings(rs: seq<string>): (vs: seq<Value>)
    ensures |vs| == |rs|
    ensures forall i :: 0 <= i < |rs| ==> vs[i] == Str(rs[i])
  {
    seq(|rs|, i requires 0 <= i < |rs| => Str(rs[i]))
  }

  /** The raw `rules` list; empty when the entry is missing or is no list. */
  function RuleEntries(doc: Document): seq<Value> {
    match doc.Get(Rules)
    case Some(Seq(items)) => items
    case _ => []
  }

  /** The rules of a document as text, non-string entries skipped. */
  function RulesOf(doc: Document): seq<string> {
    Strings(RuleEntries(doc))
  }

  /** The `rules` entry is a list that holds exactly the rules `rs`. */
  ghost predicate HasRules(doc: Document, rs: seq<string>) {
    doc.Get(Rules) == Some(Seq(FromStrings(rs)))
  }

  lemma {:induction false} StringsConcat(a: seq<Value>, b: seq<Value>)
    ensures Strings(a + b) == Strings(a) + Strings(b)
  {
    if a == [] {
      assert a + b == b;
    } else {
      assert (a + b)[1..] == a[1..] + b;
      StringsConcat(a[1..], b);
    }
  }

  lemma {:induction false} StringsRoundTrip(rs: seq<string>)
    ensures Strings(FromStrings(rs)) == rs
  {
    if rs != [] {
      assert FromStrings(rs)[1..] == FromStrings(rs[1..]);
      StringsRoundTrip(rs[1..]);
      assert rs == [rs[0]] + rs[1..];
    }
  }

  /** Non-string entries are what makes the text list shorter than the raw list. */
  lemma {:induction false} StringsLength(vs: seq<Value>)
    ensures |Strings(vs)| <= |vs|
    ensures |Strings(vs)| == |vs| <==> (forall v :: v in vs ==> v.Str?)
    ensures |Strings(vs)| == |vs| ==> FromStrings(Strings(vs)) == vs
  {
    if vs != [] {
      StringsLength(vs[1..]);
      assert vs == [vs[0]] + vs[1..];
      assert forall v :: v in vs <==> v == vs[0] || v in vs[1..];
      if |Strings(vs)| == |vs| {
        assert Strings(vs) == [vs[0].s] + Strings(vs[1..]);
      }
    }
  }

  lemma FromStringsConcat(a: seq<string>, b: seq<string>)
    ensures FromStrings(a + b) == FromStrings(a) + FromStrings(b)
  {}

  /** `HasRules` pins down both readings of the list. */
  lemma HasRulesReads(doc: Document, rs: seq<string>)
    requires HasRules(doc, rs)
    ensures RulesOf(doc) == rs && |RuleEntries(doc)| == |rs|
  {
    StringsRoundTrip(rs);
  }
}
