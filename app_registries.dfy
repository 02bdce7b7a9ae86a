/** The app-registry list and the registry-server command line built from a
    catalog's package IDs (`getAppRegistries` and `getCommand`). */
module AppRegistries {
  import opened Objects

  /** Metadata the datastore reader returns for one package. */
  datatype PackageMeta = PackageMeta(endpoint: string, registryNamespace: string, secretNamespacedName: string)

  const ServerBinary: string := "appregistry-server"
  const RegistryFlag: string := "-r"
  const PackagesFlag: string := "-o"

  /** `endpoint|namespace`, followed by `|secret` for a private registry. */
  function Encode(m: PackageMeta): (s: string)
    ensures |s| > |m.endpoint|
    ensures s[..|m.endpoint|] == m.endpoint
    ensures s[|m.endpoint|] == '|'
    ensures m.secretNamespacedName == "" ==> |s| == |m.endpoint| + 1 + |m.registryNamespace|
    ensures m.secretNamespacedName != "" ==>
      |s| == |m.endpoint| + 2 + |m.registryNamespace| + |m.secretNamespacedName|
      && s[|s| - |m.secretNamespacedName| - 1] == '|'
  {
    var base := m.endpoint + "|" + m.registryNamespace;
    if m.secretNamespacedName != "" then base + "|" + m.secretNamespacedName else base
  }

  /** A public and a private registry with the same endpoint and namespace
      encode differently, so they are never merged. */
  lemma SecretDistinguishesEncoding(endpoint: string, namespace: string, secret: string)
    requires secret != ""
    ensures Encode(PackageMeta(endpoint, namespace, "")) != Encode(PackageMeta(endpoint, namespace, secret))
  {
    assert |Encode(PackageMeta(endpoint, namespace, ""))| < |Encode(PackageMeta(endpoint, namespace, secret))|;
  }

  /** The encodings of the packages whose read succeeds, in package order;
      a package missing from the reader stands for a failed read. */
  function Hits(reader: map<string, PackageMeta>, ids: seq<string>): (r: seq<string>)
    ensures |r| <= |ids|
  {
    if ids == [] then []
    else
      var init := ids[..|ids| - 1];
      var id := ids[|ids| - 1];
      Hits(reader, init) + if id in reader then [Encode(reader[id])] else []
  }

  /** An encoding is a hit exactly when some package read successfully
      yields it; a failed read contributes nothing. */
  lemma {:induction false} HitsMembers(reader: map<string, PackageMeta>, ids: seq<string>)
    ensures forall x :: x in Hits(reader, ids) <==>
      exists i :: 0 <= i < |ids| && ids[i] in reader && Encode(reader[ids[i]]) == x
  {
    if ids != [] {
      var init := ids[..|ids| - 1];
      HitsMembers(reader, init);
      assert forall i :: 0 <= i < |init| ==> init[i] == ids[i];
    }
  }

  /** The app-registry list holds exactly the encodings of the packages
      that were read successfully, each once. */
  lemma AppRegistriesExactlyHits(reader: map<string, PackageMeta>, ids: seq<string>)
    ensures NoDuplicates(AppRegistriesOf(reader, ids))
    ensures forall x :: x in AppRegistriesOf(reader, ids) <==>
      exists i :: 0 <= i < |ids| && ids[i] in reader && Encode(reader[ids[i]]) == x
  {
    HitsMembers(reader, ids);
  }

  ghost predicate NoDuplicates(s: seq<string>) {
    forall i, j :: 0 <= i < j < |s| ==> s[i] != s[j]
  }

  /** First-seen deduplication: an element is kept at its first occurrence. */
  function Dedup(s: seq<string>): (r: seq<string>)
    ensures NoDuplicates(r)
    ensures forall x :: x in r <==> x in s
    ensures |r| <= |s|
  {
    if s == [] then []
    else
      var init := s[..|s| - 1];
      var x := s[|s| - 1];
      assert s == init + [x];
      var d := Dedup(init);
      if x in d then d else d + [x]
  }

  /** The list `getAppRegistries` returns. */
  function AppRegistriesOf(reader: map<string, PackageMeta>, ids: seq<string>): (r: seq<string>) {
    Dedup(Hits(reader, ids))
  }

  /** Whether some successfully read package names a pull secret. */
  predicate SecretPresent(reader: map<string, PackageMeta>, ids: seq<string>) {
    exists i :: 0 <= i < |ids| && ids[i] in reader && reader[ids[i]].secretNamespacedName != ""
  }

  /** getAppRegistries: read each package in order, skip failed reads, encode
      the hit, append it unless an equal entry is already listed, and flag
      any hit that carries a secret. */
  method GetAppRegistries(reader: map<string, PackageMeta>, packageIDs: seq<string>)
    returns (appRegistries: seq<string>, secretIsPresent: bool)
    ensures appRegistries == AppRegistriesOf(reader, packageIDs)
    ensures NoDuplicates(appRegistries)
    ensures secretIsPresent <==> SecretPresent(reader, packageIDs)
  {
    appRegistries, secretIsPresent := [], false;
    var n := 0;
    while n < |packageIDs|
      invariant 0 <= n <= |packageIDs|
      invariant appRegistries == Dedup(Hits(reader, packageIDs[..n]))
      invariant secretIsPresent <==> SecretPresent(reader, packageIDs[..n])
    {
      var packageID := packageIDs[n];
      if packageID !in reader {
        // the read failed: skip this package
        ReadStep(reader, packageIDs, n);
        n := n + 1;
        continue;
      }
      var opsrcMeta := reader[packageID];
      var appRegistry := opsrcMeta.endpoint + "|" + opsrcMeta.registryNamespace;
      if opsrcMeta.secretNamespacedName != "" {
        appRegistry := appRegistry + "|" + opsrcMeta.secretNamespacedName;
        secretIsPresent := true;
      }
      assert appRegistry == Encode(opsrcMeta);
      ReadStep(reader, packageIDs, n);
      appRegistries := AppendIfAbsent(appRegistries, appRegistry);
      n := n + 1;
    }
    assert packageIDs[..n] == packageIDs;
  }

  /** The duplicate check of the read loop: scan the list for an equal
      entry and append the new one only when none is found. */
  method AppendIfAbsent(appRegistries: seq<string>, appRegistry: string) returns (r: seq<string>)
    ensures r == if appRegistry in appRegistries then appRegistries else appRegistries + [appRegistry]
  {
    var found := false;
    var k := 0;
    while k < |appRegistries|
      invariant 0 <= k <= |appRegistries|
      invariant found <==> appRegistry in appRegistries[..k]
    {
      if appRegistries[k] == appRegistry {
        found := true;
        assert appRegistry in appRegistries[..k + 1];
        break;
      }
      assert appRegistries[..k + 1] == appRegistries[..k] + [appRegistries[k]];
      k := k + 1;
    }
    assert found <==> appRegistry in appRegistries by {
      if !found { assert appRegistries[..k] == appRegistries; }
    }
    r := if found then appRegistries else appRegistries + [appRegistry];
  }

  /** One iteration of the read loop in terms of the specification: the
      hits and the secret flag of the next prefix. */
  lemma ReadStep(reader: map<string, PackageMeta>, ids: seq<string>, n: nat)
    requires n < |ids|
    ensures ids[n] !in reader ==>
      && Hits(reader, ids[..n + 1]) == Hits(reader, ids[..n])
      && (SecretPresent(reader, ids[..n + 1]) <==> SecretPresent(reader, ids[..n]))
    ensures ids[n] in reader ==>
      var before := Hits(reader, ids[..n]);
      var e := Encode(reader[ids[n]]);
      && Hits(reader, ids[..n + 1]) == before + [e]
      && Dedup(before + [e]) == (if e in Dedup(before) then Dedup(before) else Dedup(before) + [e])
      && (SecretPresent(reader, ids[..n + 1])
          <==> SecretPresent(reader, ids[..n]) || reader[ids[n]].secretNamespacedName != "")
  {
    HitsStep(reader, ids, n);
    SecretStep(reader, ids, n);
  }

  lemma HitsStep(reader: map<string, PackageMeta>, ids: seq<string>, n: nat)
    requires n < |ids|
    ensures Hits(reader, ids[..n + 1])
      == Hits(reader, ids[..n]) + if ids[n] in reader then [Encode(reader[ids[n]])] else []
    ensures ids[n] in reader ==>
      var before := Hits(reader, ids[..n]);
      var e := Encode(reader[ids[n]]);
      Dedup(before + [e]) == (if e in Dedup(before) then Dedup(before) else Dedup(before) + [e])
  {
    var p, q := ids[..n], ids[..n + 1];
    assert q[..n] == p && q[n] == ids[n];
    if ids[n] in reader {
      var before := Hits(reader, p);
      var e := Encode(reader[ids[n]]);
      assert (before + [e])[..|before|] == before;
    }
  }

  lemma SecretStep(reader: map<string, PackageMeta>, ids: seq<string>, n: nat)
    requires n < |ids|
    ensures SecretPresent(reader, ids[..n + 1])
      <==> SecretPresent(reader, ids[..n]) || (ids[n] in reader && reader[ids[n]].secretNamespacedName != "")
  {
    var p, q := ids[..n], ids[..n + 1];
    if SecretPresent(reader, q) {
      var i :| 0 <= i < |q| && q[i] in reader && reader[q[i]].secretNamespacedName != "";
      if i < n { assert p[i] == q[i]; }
    }
    if SecretPresent(reader, p) {
      var i :| 0 <= i < |p| && p[i] in reader && reader[p[i]].secretNamespacedName != "";
      assert q[i] == p[i];
    }
    if ids[n] in reader && reader[ids[n]].secretNamespacedName != "" {
      assert q[n] == ids[n];
    }
  }

  /** The `-r <registry>` pairs, one per registry, in order. */
  function RegistryArgs(appRegistries: seq<string>): (r: seq<string>)
    ensures |r| == 2 * |appRegistries|
    ensures forall i :: 0 <= i < |appRegistries| ==> r[2 * i] == RegistryFlag && r[2 * i + 1] == appRegistries[i]
  {
    if appRegistries == [] then []
    else
      var rest := RegistryArgs(appRegistries[1..]);
      var r := [RegistryFlag, appRegistries[0]] + rest;
      assert forall i :: 0 < i < |appRegistries| ==> r[2 * i] == RegistryFlag && r[2 * i + 1] == appRegistries[i] by {
        forall i | 0 < i < |appRegistries|
          ensures r[2 * i] == RegistryFlag && r[2 * i + 1] == appRegistries[i]
        {
          assert r[2 * i] == rest[2 * (i - 1)] && r[2 * i + 1] == rest[2 * (i - 1) + 1];
        }
      }
      r
  }

  /** The registry-server command line. */
  function CommandLine(packages: string, appRegistries: seq<string>): (command: seq<string>)
    ensures |command| == 3 + 2 * |appRegistries|
    ensures command[0] == ServerBinary
    ensures command[|command| - 2] == PackagesFlag && command[|command| - 1] == packages
    ensures forall i :: 0 <= i < |appRegistries| ==>
      command[1 + 2 * i] == RegistryFlag && command[2 + 2 * i] == appRegistries[i]
  {
    var args := RegistryArgs(appRegistries);
    var command := [ServerBinary] + args + [PackagesFlag, packages];
    assert forall i :: 0 <= i < |appRegistries| ==> command[1 + 2 * i] == args[2 * i] && command[2 + 2 * i] == args[2 * i + 1];
    command
  }

  /** getCommand: start with the binary, append `-r r` per registry, end
      with `-o packages`. */
  method GetCommand(packages: string, appRegistries: seq<string>) returns (command: seq<string>)
    ensures command == CommandLine(packages, appRegistries)
  {
    command := [ServerBinary];
    var i := 0;
    while i < |appRegistries|
      invariant 0 <= i <= |appRegistries|
      invariant |command| == 1 + 2 * i && command[0] == ServerBinary
      invariant forall j :: 0 <= j < i ==> command[1 + 2 * j] == RegistryFlag && command[2 + 2 * j] == appRegistries[j]
    {
      command := command + [RegistryFlag, appRegistries[i]];
      i := i + 1;
    }
    command := command + [PackagesFlag, packages];
    ghost var expected := CommandLine(packages, appRegistries);
    assert forall k :: 0 <= k < |command| ==> command[k] == expected[k] by {
      forall k | 0 <= k < |command| ensures command[k] == expected[k] {
        if 1 <= k < |command| - 2 {
          var j := (k - 1) / 2;
          assert k == 1 + 2 * j || k == 2 + 2 * j;
        }
      }
    }
  }

  /** How the registry server reads its `-r` arguments back: pairs of flag
      and value, keeping the value of every `-r` pair. */
  function ParseRegistryArgs(args: seq<string>): (appRegistries: seq<string>)
    decreases |args|
  {
    if |args| < 2 then []
    else (if args[0] == RegistryFlag then [args[1]] else []) + ParseRegistryArgs(args[2..])
  }

  /** Reads a command line back into its registries and package list; None
      when it does not have the command's shape. */
  function ParseCommand(command: seq<string>): (r: Option<(seq<string>, string)>)
  {
    if |command| < 3 || command[0] != ServerBinary
       || command[|command| - 2] != PackagesFlag
    then None
    else Some((ParseRegistryArgs(command[1..|command| - 2]), command[|command| - 1]))
  }

  lemma {:induction false} ParseRegistryArgsRoundTrip(appRegistries: seq<string>)
    ensures ParseRegistryArgs(RegistryArgs(appRegistries)) == appRegistries
  {
    if appRegistries != [] {
      var args := RegistryArgs(appRegistries);
      assert args[2..] == RegistryArgs(appRegistries[1..]);
      ParseRegistryArgsRoundTrip(appRegistries[1..]);
    }
  }

  /** The command line carries every registry, in order, and the package
      list: reading it back gives exactly the inputs of `getCommand`. */
  lemma CommandRoundTrip(packages: string, appRegistries: seq<string>)
    ensures ParseCommand(CommandLine(packages, appRegistries)) == Some((appRegistries, packages))
  {
    var args := RegistryArgs(appRegistries);
    var command := [ServerBinary] + args + [PackagesFlag, packages];
    assert command == CommandLine(packages, appRegistries);
    assert command[1..|command| - 2] == args;
    ParseRegistryArgsRoundTrip(appRegistries);
  }

  /** The order of first occurrence: Dedup of a prefix is a prefix of Dedup,
      so an entry seen earlier is never listed after one seen later. */
  lemma {:induction false} DedupPrefix(s: seq<string>, k: nat)
    requires k <= |s|
    ensures |Dedup(s[..k])| <= |Dedup(s)| && Dedup(s)[..|Dedup(s[..k])|] == Dedup(s[..k])
    decreases |s|
  {
    if k < |s| {
      var init := s[..|s| - 1];
      assert init[..k] == s[..k];
      DedupPrefix(init, k);
    } else {
      assert s[..k] == s;
    }
  }

  /** The index of the first occurrence of `x` in `s`. */
  function FirstIndex(s: seq<string>, x: string): (i: nat)
    requires x in s
    ensures i < |s| && s[i] == x && x !in s[..i]
  {
    if s[0] == x then 0
    else
      assert s == [s[0]] + s[1..];
      var i := FirstIndex(s[1..], x);
      assert s[..i + 1] == [s[0]] + s[1..][..i];
      i + 1
  }

  lemma FirstIndexOfPrefix(s: seq<string>, k: nat, x: string)
    requires k <= |s| && x in s[..k]
    ensures FirstIndex(s, x) == FirstIndex(s[..k], x)
  {
    var i, j := FirstIndex(s, x), FirstIndex(s[..k], x);
    assert s[..k][j] == s[j];
  }

  /** First-seen order: entries of the deduplicated list appear in the order
      of their first occurrence in the input. */
  lemma {:induction false} DedupFirstSeenOrder(s: seq<string>, i: nat, j: nat)
    requires i < j < |Dedup(s)|
    ensures Dedup(s)[i] in s && Dedup(s)[j] in s
    ensures FirstIndex(s, Dedup(s)[i]) < FirstIndex(s, Dedup(s)[j])
    decreases |s|
  {
    var d := Dedup(s);
    assert d[i] in d && d[j] in d;
    var init := s[..|s| - 1];
    var x := s[|s| - 1];
    var d' := Dedup(init);
    assert d'[..] == d' && s[..|s| - 1] == init;
    if j < |d'| {
      assert d[i] == d'[i] && d[j] == d'[j];
      assert d'[i] in d' && d'[j] in d';
      DedupFirstSeenOrder(init, i, j);
      FirstIndexOfPrefix(s, |s| - 1, d[i]);
      FirstIndexOfPrefix(s, |s| - 1, d[j]);
    } else {
      // d[j] is the newly appended last element, seen for the first time at the end
      assert x !in d' && d[j] == x;
      assert x !in init;
      assert d[i] == d'[i] && d'[i] in d' && d'[i] in init;
      FirstIndexOfPrefix(s, |s| - 1, d[i]);
      assert s[..|s| - 1] == init;
      assert FirstIndex(s, x) == |s| - 1;
    }
  }

  /** A list that is already free of duplicates is returned unchanged. */
  lemma {:induction false} DedupOfDistinct(s: seq<string>)
    requires NoDuplicates(s)
    ensures Dedup(s) == s
  {
    if s != [] {
      var init := s[..|s| - 1];
      assert NoDuplicates(init);
      DedupOfDistinct(init);
      assert s[|s| - 1] !in init;
      assert s == init + [s[|s| - 1]];
    }
  }

  /** Two successful reads list their encodings in package order, once
      each. */
  lemma TwoReads(reader: map<string, PackageMeta>, ids: seq<string>)
    requires |ids| == 2 && ids[0] in reader && ids[1] in reader
    ensures var e0, e1 := Encode(reader[ids[0]]), Encode(reader[ids[1]]);
      AppRegistriesOf(reader, ids) == if e0 == e1 then [e0] else [e0, e1]
  {
    assert ids[..0] == [] && ids[..2] == ids;
    HitsStep(reader, ids, 0);
    HitsStep(reader, ids, 1);
  }

  /** A public and a private registry on the same endpoint and namespace,
      read in that order: both are listed, in package order, and the secret
      is flagged. */
  lemma PublicAndPrivateRegistryBothListed(reader: map<string, PackageMeta>, ids: seq<string>)
    requires |ids| == 2 && ids[0] in reader && ids[1] in reader
    requires reader[ids[0]].secretNamespacedName == ""
    requires reader[ids[1]] == reader[ids[0]].(secretNamespacedName := reader[ids[1]].secretNamespacedName)
    requires reader[ids[1]].secretNamespacedName != ""
    ensures AppRegistriesOf(reader, ids)
      == [Encode(reader[ids[0]]), Encode(reader[ids[0]]) + "|" + reader[ids[1]].secretNamespacedName]
    ensures SecretPresent(reader, ids)
  {
    TwoReads(reader, ids);
    var m := reader[ids[0]];
    SecretDistinguishesEncoding(m.endpoint, m.registryNamespace, reader[ids[1]].secretNamespacedName);
    assert ids[1] in reader && reader[ids[1]].secretNamespacedName != "";
  }
}
