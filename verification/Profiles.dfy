/** profiles.yaml, the profile files, and the merging of several profiles into one config. */
module Profiles {
  import opened Prelude
  import opened Documents
  import opened Routing

  /** How a profile's content is obtained: run a script, merge other profiles, or read its file. */
  datatype Kind = Script | Merge | Plain

  /** A listed profile; `remote` profiles are plain ones that come from a URL. */
  datatype ProfileItem = ProfileItem(
    uid: string, file: Option<string>, url: Option<string>, kind: Kind, remote: bool, merge: seq<string>)

  datatype ProfilesYaml = ProfilesYaml(current: Option<string>, items: seq<ProfileItem>)

  /** The parsed contents of the profiles directory, by file name. */
  type Files = map<string, Document>

  /** The first item with the given uid. */
  function FindItem(items: seq<ProfileItem>, uid: string): Option<ProfileItem> {
    if items == [] then None
    else if items[0].uid == uid then Some(items[0])
    else FindItem(items[1..], uid)
  }

  /** The file that holds a profile: its own name, the short name, or the full-uid name. */
  function Resolve(files: Files, uid: string, file: Option<string>): string {
    if file.Some? && file.value in files then file.value
    else if |uid| > 8 && uid[..8] + ".yaml" in files then uid[..8] + ".yaml"
    else uid + ".yaml"
  }

  /** The document a merge reads for one uid. */
  function Load(uid: string, files: Files, profiles: ProfilesYaml): Result<Document> {
    match FindItem(profiles.items, uid)
    case None => Err("Profile not found for merge")
    case Some(item) =>
      var path := Resolve(files, uid, item.file);
      if path !in files then Err("Failed to read profile")
      else if files[path].Unparsable? then Err("Failed to parse profile")
      else Ok(files[path])
  }

  /** The lookup finds the first item of the uid. */
  lemma {:induction false} FindItemFirst(items: seq<ProfileItem>, uid: string)
    ensures FindItem(items, uid).None? <==> forall i :: 0 <= i < |items| ==> items[i].uid != uid
    ensures FindItem(items, uid).Some? ==>
              exists i :: 0 <= i < |items| && items[i] == FindItem(items, uid).value && items[i].uid == uid
                          && forall j :: 0 <= j < i ==> items[j].uid != uid
  {
    if items != [] {
      FindItemFirst(items[1..], uid);
      if items[0].uid != uid && FindItem(items, uid).Some? {
        var rest := items[1..];
        var i :| 0 <= i < |rest| && rest[i] == FindItem(rest, uid).value && rest[i].uid == uid
                 && forall j :: 0 <= j < i ==> rest[j].uid != uid;
        forall j | 0 <= j < i + 1 ensures items[j].uid != uid {
          assert j > 0 ==> rest[j - 1] == items[j];
        }
        assert items[i + 1] == rest[i];
      }
      assert forall i :: 0 < i < |items| ==> items[i] == items[1..][i - 1];
    }
  }

  /**
    * The file of a profile: the one its item names if that exists, else the one named by the first eight
    * characters of a long uid if that exists, else the one named by the whole uid.
    */
  lemma ResolveFinds(files: Files, uid: string, file: Option<string>)
    ensures var path := Resolve(files, uid, file);
            && (file.Some? && file.value in files ==> path == file.value)
            && ((file.None? || file.value !in files) && |uid| > 8 && uid[..8] + ".yaml" in files ==>
                  path == uid[..8] + ".yaml")
            && (path !in files ==> path == uid + ".yaml" && (file.Some? ==> file.value !in files))
            && (path in files ==>
                  file == Some(path) || path == uid + ".yaml" || (|uid| > 8 && path == uid[..8] + ".yaml"))
  {}

  /** A profile can be merged if and only if it is listed and its file is there and parses. */
  lemma LoadedIff(uid: string, files: Files, profiles: ProfilesYaml)
    ensures Load(uid, files, profiles).Ok?
       <==> && (exists i :: 0 <= i < |profiles.items| && profiles.items[i].uid == uid)
            && var path := Resolve(files, uid, FindItem(profiles.items, uid).GetOr(NO_ITEM).file);
               path in files && !files[path].Unparsable?
    ensures Load(uid, files, profiles).Ok? ==>
              var path := Resolve(files, uid, FindItem(profiles.items, uid).GetOr(NO_ITEM).file);
              path in files && Load(uid, files, profiles).value == files[path]
  {
    FindItemFirst(profiles.items, uid);
  }

  const NO_ITEM := ProfileItem("", None, None, Plain, false, [])

  /** The document every merge starts from. */
  const MERGE_BASE := Mapping(map[Mode := Str("rule"), Proxies := Seq([])])

  /** One section after one more profile: lists are joined, otherwise the first value stays. */
  function MergeSection(merged: Option<Value>, section: Option<Value>): Option<Value> {
    match (merged, section)
    case (Some(Seq(a)), Some(Seq(b))) => Some(Seq(a + b))
    case (Some(v), _) => Some(v)
    case (None, _) => section
  }

  const SECTIONS: set<Key> := {Proxies, ProxyGroups, Rules}

  /** A document is the merge of `docs`: the base, with each section joined from left to right. */
  ghost predicate IsMergeOf(merged: Document, docs: seq<Document>) {
    && merged.Mapping?
    && forall k :: merged.Get(k) ==
                     if k in SECTIONS then MergedSection(docs, k) else MERGE_BASE.Get(k)
  }

  /** A section after all of `docs` went in. */
  function MergedSection(docs: seq<Document>, k: Key): Option<Value> {
    if docs == [] then MERGE_BASE.Get(k)
    else MergeSection(MergedSection(docs[..|docs| - 1], k), docs[|docs| - 1].Get(k))
  }

  /** The merge of `docs` as one document. */
  function MergedDocument(docs: seq<Document>): Document {
    Mapping(map k | k in {Mode} + SECTIONS && MergedEntry(docs, k).Some? :: MergedEntry(docs, k).value)
  }

  function MergedEntry(docs: seq<Document>, k: Key): Option<Value> {
    if k in SECTIONS then MergedSection(docs, k) else MERGE_BASE.Get(k)
  }

  /** What merging the listed profiles yields: a document, or a failure when one of them cannot be loaded. */
  function MergeResult(uids: seq<string>, files: Files, profiles: ProfilesYaml): Option<Document> {
    if forall i :: 0 <= i < |uids| ==> Load(uids[i], files, profiles).Ok?
    then Some(MergedDocument(Loaded(uids, files, profiles)))
    else None
  }

  /** Join one section of a profile into the merged document, entry by entry. */
  method MergeOne(merged: Document, profile: Document, k: Key) returns (r: Document)
    requires merged.Mapping?
    ensures r.Mapping? && r.Get(k) == MergeSection(merged.Get(k), profile.Get(k))
    ensures forall other :: other != k ==> r.Get(other) == merged.Get(other)
  {
    r := merged;
    if merged.Get(k).Some? && profile.Get(k).Some? {
      var target, source := merged.Get(k).value, profile.Get(k).value;
      if target.Seq? && source.Seq? {
        var items := target.items;
        for i := 0 to |source.items|
          invariant items == target.items + source.items[..i]
        {
          items := items + [source.items[i]];
        }
        assert source.items[..|source.items|] == source.items;
        r := merged.With(k, Seq(items));
      }
    } else if profile.Get(k).Some? {
      r := merged.With(k, profile.Get(k).value);
    }
  }

  /** Join the three sections of one more profile; a profile that is no mapping adds nothing. */
  method MergeInto(merged: Document, profile: Document, ghost docs: seq<Document>) returns (r: Document)
    requires IsMergeOf(merged, docs)
    ensures IsMergeOf(r, docs + [profile])
  {
    r := merged;
    if profile.Mapping? {
      r := MergeOne(r, profile, Proxies);
      r := MergeOne(r, profile, ProxyGroups);
      r := MergeOne(r, profile, Rules);
    }
    MergedNext(merged, r, docs, profile);
  }

  /** Merge the listed profiles into one config; the first profile that cannot be loaded fails the merge. */
  method MergeProfiles(uids: seq<string>, files: Files, profiles: ProfilesYaml) returns (r: Result<Document>)
    ensures r.Ok? <==> forall i :: 0 <= i < |uids| ==> Load(uids[i], files, profiles).Ok?
    ensures r.Ok? ==> IsMergeOf(r.value, Loaded(uids, files, profiles))
    ensures MergeResult(uids, files, profiles) == if r.Ok? then Some(r.value) else None
    ensures r.Err? ==> exists i :: 0 <= i < |uids| && Load(uids[i], files, profiles) == r
                                   && forall j :: 0 <= j < i ==> Load(uids[j], files, profiles).Ok?
  {
    var merged := MERGE_BASE;
    ghost var docs: seq<Document> := [];
    for i := 0 to |uids|
      invariant forall j :: 0 <= j < i ==> Load(uids[j], files, profiles).Ok?
      invariant docs == Loaded(uids[..i], files, profiles) && IsMergeOf(merged, docs)
    {
      var loaded := Load(uids[i], files, profiles);
      if loaded.Err? {
        return loaded;
      }
      var profile := loaded.value;
      merged := MergeInto(merged, profile, docs);
      docs := docs + [profile];
      LoadedNext(uids, files, profiles, i);
    }
    assert uids[..|uids|] == uids;
    MergeIsUnique(merged, docs);
    r := Ok(merged);
  }

  /** `IsMergeOf` determines the document. */
  lemma MergeIsUnique(merged: Document, docs: seq<Document>)
    ensures IsMergeOf(merged, docs) <==> merged == MergedDocument(docs)
  {
    if IsMergeOf(merged, docs) {
      forall k ensures k in merged.entries <==> k in MergedDocument(docs).entries {
        assert merged.Get(k) == MergedEntry(docs, k);
      }
      forall k | k in merged.entries ensures merged.entries[k] == MergedDocument(docs).entries[k] {
        assert merged.Get(k) == MergedEntry(docs, k);
      }
      assert merged.entries == MergedDocument(docs).entries;
    }
  }

  /** The documents of those uids that load, in order. */
  function Loaded(uids: seq<string>, files: Files, profiles: ProfilesYaml): seq<Document> {
    if uids == [] then []
    else
      var n := |uids| - 1;
      var last := Load(uids[n], files, profiles);
      Loaded(uids[..n], files, profiles) + (if last.Ok? then [last.value] else [])
  }

  lemma LoadedNext(uids: seq<string>, files: Files, profiles: ProfilesYaml, i: nat)
    requires i < |uids| && Load(uids[i], files, profiles).Ok?
    ensures Loaded(uids[..i + 1], files, profiles)
         == Loaded(uids[..i], files, profiles) + [Load(uids[i], files, profiles).value]
  {
    assert uids[..i + 1][..i] == uids[..i];
  }

  /** Joining the three sections of one more profile keeps the document a merge. */
  lemma MergedNext(before: Document, after: Document, docs: seq<Document>, profile: Document)
    requires IsMergeOf(before, docs) && after.Mapping?
    requires forall k :: after.Get(k) == if k in SECTIONS then MergeSection(before.Get(k), profile.Get(k))
                                         else before.Get(k)
    ensures IsMergeOf(after, docs + [profile])
  {
    assert (docs + [profile])[..|docs|] == docs;
  }

  // ----- What the merged sections contain -----

  /** The entries of all list-typed `k` sections, in profile order. */
  function Joined(docs: seq<Document>, k: Key): seq<Value> {
    if docs == [] then [] else ListOf(docs[0], k) + Joined(docs[1..], k)
  }

  /** The entries of one section; empty when it is missing or no list. */
  function ListOf(doc: Document, k: Key): seq<Value> {
    match doc.Get(k)
    case Some(Seq(items)) => items
    case _ => []
  }

  lemma {:induction false} JoinedConcat(a: seq<Document>, b: seq<Document>, k: Key)
    ensures Joined(a + b, k) == Joined(a, k) + Joined(b, k)
  {
    if a == [] {
      assert a + b == b;
    } else {
      assert (a + b)[1..] == a[1..] + b;
      JoinedConcat(a[1..], b, k);
    }
  }

  lemma JoinedLast(docs: seq<Document>, k: Key)
    requires docs != []
    ensures var n := |docs| - 1;
            Joined(docs, k) == Joined(docs[..n], k) + ListOf(docs[n], k)
    ensures ListOf(docs[|docs| - 1], k) == [] ==> Joined(docs, k) == Joined(docs[..|docs| - 1], k)
  {
    var n := |docs| - 1;
    assert docs == docs[..n] + [docs[n]];
    JoinedConcat(docs[..n], [docs[n]], k);
    assert ListOf(docs[n], k) + [] == ListOf(docs[n], k);
  }

  /** The merged proxies are always the in-order join of the profiles' proxy lists. */
  lemma {:induction false} ProxiesJoined(docs: seq<Document>)
    ensures MergedSection(docs, Proxies) == Some(Seq(Joined(docs, Proxies)))
    decreases |docs|
  {
    if docs != [] {
      var n := |docs| - 1;
      ProxiesJoined(docs[..n]);
      JoinedLast(docs, Proxies);
    }
  }

  /** Position of the first document that defines `k`; the length when none does. */
  function FirstDefining(docs: seq<Document>, k: Key): (i: nat)
    ensures i <= |docs|
    ensures i < |docs| ==> docs[i].Get(k).Some?
    ensures forall j :: 0 <= j < i ==> docs[j].Get(k).None?
  {
    if docs == [] || docs[0].Get(k).Some? then 0 else 1 + FirstDefining(docs[1..], k)
  }

  /**
    * Groups and rules: the first profile that defines the section decides its type. A list is
    * extended by every later list; anything else stays as it is and every later list is dropped.
    */
  lemma {:induction false} SectionJoined(docs: seq<Document>, k: Key)
    requires k == ProxyGroups || k == Rules
    ensures var i := FirstDefining(docs, k);
            MergedSection(docs, k) ==
              if i == |docs| then None
              else if docs[i].Get(k).value.Seq? then Some(Seq(Joined(docs, k)))
              else docs[i].Get(k)
    decreases |docs|
  {
    if docs != [] {
      var n := |docs| - 1;
      SectionJoined(docs[..n], k);
      JoinedLast(docs, k);
      FirstDefiningPrefix(docs, k);
      var i := FirstDefining(docs[..n], k);
      if i == n {
        JoinedUndefined(docs[..n], k);
        assert [] + ListOf(docs[n], k) == ListOf(docs[n], k);
        assert MergedSection(docs, k) == docs[n].Get(k);
      } else {
        assert docs[..n][i] == docs[i];
        assert MergedSection(docs, k) == MergeSection(MergedSection(docs[..n], k), docs[n].Get(k));
      }
    }
  }

  /** Only one position is the first that defines the section. */
  lemma {:induction false} FirstIsUnique(docs: seq<Document>, k: Key, i: nat)
    requires i <= |docs| && (i < |docs| ==> docs[i].Get(k).Some?)
    requires forall j :: 0 <= j < i ==> docs[j].Get(k).None?
    ensures FirstDefining(docs, k) == i
  {}

  lemma {:induction false} FirstDefiningPrefix(docs: seq<Document>, k: Key)
    requires docs != []
    ensures var n := |docs| - 1;
            var i := FirstDefining(docs[..n], k);
            FirstDefining(docs, k) == if i < n then i else if docs[n].Get(k).Some? then n else n + 1
  {
    var n := |docs| - 1;
    var i := FirstDefining(docs[..n], k);
    PrefixUndefined(docs, k, n, i);
    FirstIsUnique(docs, k, if i < n then i else if docs[n].Get(k).Some? then n else n + 1);
  }

  lemma {:induction false} PrefixUndefined(docs: seq<Document>, k: Key, n: nat, i: nat)
    requires i <= n <= |docs| && (i < n ==> docs[..n][i].Get(k).Some?)
    requires forall j :: 0 <= j < i ==> docs[..n][j].Get(k).None?
    ensures forall j :: 0 <= j < i ==> docs[j].Get(k).None?
    ensures i < n ==> docs[i].Get(k).Some?
  {
    forall j | 0 <= j < i ensures docs[j].Get(k).None? {
      assert docs[..n][j] == docs[j];
    }
  }

  lemma {:induction false} JoinedUndefined(docs: seq<Document>, k: Key)
    requires FirstDefining(docs, k) == |docs|
    ensures Joined(docs, k) == []
  {
    if docs != [] {
      JoinedUndefined(docs[1..], k);
    }
  }

  /** The section is a list wherever it is defined. */
  ghost predicate ListTyped(docs: seq<Document>, k: Key) {
    forall d :: d in docs && d.Get(k).Some? ==> d.Get(k).value.Seq?
  }

  /** With list-typed sections the merged list is the join of all lists. */
  lemma ListTypedJoined(docs: seq<Document>, k: Key, merged: Document)
    requires k in SECTIONS && ListTyped(docs, k) && IsMergeOf(merged, docs)
    ensures ListOf(merged, k) == Joined(docs, k)
  {
    if k == Proxies {
      ProxiesJoined(docs);
    } else {
      SectionJoined(docs, k);
      if FirstDefining(docs, k) == |docs| {
        JoinedUndefined(docs, k);
      }
    }
  }

  /** Merging two groups of profiles together appends, section by section, what merging each group gives. */
  lemma MergeHomomorphism(xs: seq<Document>, ys: seq<Document>, k: Key, both: Document, left: Document, right: Document)
    requires k in SECTIONS && ListTyped(xs + ys, k)
    requires IsMergeOf(both, xs + ys) && IsMergeOf(left, xs) && IsMergeOf(right, ys)
    ensures ListOf(both, k) == ListOf(left, k) + ListOf(right, k)
  {
    assert forall d :: d in xs || d in ys ==> d in xs + ys;
    ListTypedJoined(xs + ys, k, both);
    ListTypedJoined(xs, k, left);
    ListTypedJoined(ys, k, right);
    JoinedConcat(xs, ys, k);
  }

  /** A first `rules` section that is no list silences the rules of every later profile. */
  lemma NonListFirstDropsLater(docs: seq<Document>, merged: Document)
    requires IsMergeOf(merged, docs)
    requires FirstDefining(docs, Rules) < |docs| && !docs[FirstDefining(docs, Rules)].Get(Rules).value.Seq?
    ensures RulesOf(merged) == []
  {
    SectionJoined(docs, Rules);
  }

  // ----- Routing of a merged config -----

  /** The first profile's rules decide first, then those of the rest. */
  lemma JoinedRoute<P, Q>(hit: (string, P) -> bool, policy: string -> Q, docs: seq<Document>, p: P)
    requires docs != []
    ensures Route(hit, policy, Strings(Joined(docs, Rules)), p)
         == Route(hit, policy, RulesOf(docs[0]), p).Or(Route(hit, policy, Strings(Joined(docs[1..], Rules)), p))
  {
    var first, rest := ListOf(docs[0], Rules), Joined(docs[1..], Rules);
    assert Joined(docs, Rules) == first + rest && Strings(first) == RulesOf(docs[0]);
    StringsConcat(first, rest);
    RouteConcat(hit, policy, Strings(first), Strings(rest), p);
  }

  /** From some part on, the first one with a matching rule decides. */
  lemma {:induction false} JoinedRouting<P, Q>(
    hit: (string, P) -> bool, policy: string -> Q, docs: seq<Document>, from: nat, j: nat, p: P)
    requires from <= j < |docs|
    requires forall i :: from <= i < j ==> Route(hit, policy, RulesOf(docs[i]), p).None?
    requires Route(hit, policy, RulesOf(docs[j]), p).Some?
    ensures Route(hit, policy, Strings(Joined(docs[from..], Rules)), p) == Route(hit, policy, RulesOf(docs[j]), p)
    decreases j - from
  {
    JoinedRoute(hit, policy, docs[from..], p);
    assert docs[from..][0] == docs[from] && docs[from..][1..] == docs[from + 1..];
    if from < j {
      JoinedRouting(hit, policy, docs, from + 1, j, p);
    }
  }

  /** Under first match the left-most profile with a matching rule decides a packet. */
  lemma LeftmostProfileDecides<P, Q>(
    hit: (string, P) -> bool, policy: string -> Q, docs: seq<Document>, merged: Document, j: nat, p: P)
    requires ListTyped(docs, Rules) && IsMergeOf(merged, docs)
    requires j < |docs|
    requires forall i :: 0 <= i < j ==> Route(hit, policy, RulesOf(docs[i]), p).None?
    requires Route(hit, policy, RulesOf(docs[j]), p).Some?
    ensures Route(hit, policy, RulesOf(merged), p) == Route(hit, policy, RulesOf(docs[j]), p)
  {
    ListTypedJoined(docs, Rules, merged);
    assert docs[0..] == docs;
    JoinedRouting(hit, policy, docs, 0, j, p);
  }
}
