/**
 * The JAVA_OPTS flag list of the Pravega controller: a fixed baseline, the
 * block of flags gated on the Pravega version, then one `-D<name>=<value>`
 * flag per user option, in the order the options map is ranged over. Go
 * leaves that order unspecified, so the option order is a parameter here and
 * the lemmas say what holds for every order.
 */
module JavaOpts {
  import Strings

  /** The heap and out-of-memory flags every controller JVM gets, in this order. */
  const MemoryFlags: seq<string> :=
    [ "-Xms512m",
      "-XX:+ExitOnOutOfMemoryError",
      "-XX:+CrashOnOutOfMemoryError",
      "-XX:+HeapDumpOnOutOfMemoryError" ]

  /** The baseline: the memory flags, then the flag naming the cluster. */
  function BaselineFlags(clusterName: string): seq<string>
  {
    MemoryFlags + ["-Dpravegaservice.clusterName=" + clusterName]
  }

  /** The flags that only the JVMs shipped with Pravega 0.4.0 and later accept. */
  const VersionGatedFlags: seq<string> :=
    [ "-XX:+UnlockExperimentalVMOptions",
      "-XX:+UseCGroupMemoryLimitForHeap",
      "-XX:MaxRAMFraction=2" ]

  /** `fmt.Sprintf("-D%v=%v", name, value)`. */
  function DefineFlag(name: string, value: string): string
  {
    "-D" + name + "=" + value
  }

  /** `f` is the `-D<name>=<value>` flag of one of the options. */
  ghost predicate IsOptionFlag(f: string, options: map<string, string>)
  {
    exists k :: k in options && f == DefineFlag(k, options[k])
  }

  /** `order` enumerates the keys of a map: each key exactly once, in some order. */
  ghost predicate IsKeyOrder(order: seq<string>, keys: set<string>)
  {
    && (forall i, j :: 0 <= i < j < |order| ==> order[i] != order[j])
    && (forall k :: k in order <==> k in keys)
  }

  /** One `-D<name>=<value>` flag per option, the options taken in the order `order`. */
  function OptionFlags(order: seq<string>, options: map<string, string>): (flags: seq<string>)
    requires forall k :: k in order ==> k in options
    ensures |flags| == |order|
    ensures forall i :: 0 <= i < |order| ==> flags[i] == DefineFlag(order[i], options[order[i]])
  {
    if order == [] then []
    else
      var last := order[|order| - 1];
      OptionFlags(order[..|order| - 1], options) + [DefineFlag(last, options[last])]
  }

  /** The flags that do not come from the options: the baseline, then the gated block
      when the version gate is open. */
  function FixedFlags(clusterName: string, gateOpen: bool): seq<string>
  {
    BaselineFlags(clusterName) + (if gateOpen then VersionGatedFlags else [])
  }

  /** The whole flag list when the options are ranged over in the order `order`. */
  function Flags(clusterName: string, gateOpen: bool, options: map<string, string>, order: seq<string>): seq<string>
    requires forall k :: k in order ==> k in options
  {
    FixedFlags(clusterName, gateOpen) + OptionFlags(order, options)
  }

  // ---------------------------------------------------------------------------
  // Key orders and the option flags
  // ---------------------------------------------------------------------------

  /** A key order has exactly one entry per key. */
  lemma {:induction false} KeyOrderLength(order: seq<string>, keys: set<string>)
    requires IsKeyOrder(order, keys)
    ensures |order| == |keys|
  {
    if order == [] {
      assert forall k :: k !in keys;
      assert keys == {};
    } else {
      var n := |order| - 1;
      var last := order[n];
      assert forall k :: k in order[..n] ==> k != last;
      assert forall k :: k in order <==> k in order[..n] || k == last;
      KeyOrderLength(order[..n], keys - {last});
    }
  }

  /** Removing one key from a key order leaves a key order of the other keys. */
  lemma KeyOrderRemove(order: seq<string>, keys: set<string>, j: nat)
    requires IsKeyOrder(order, keys) && j < |order|
    ensures IsKeyOrder(order[..j] + order[j + 1..], keys - {order[j]})
  {
    var rest := order[..j] + order[j + 1..];
    forall i | 0 <= i < |rest| ensures rest[i] == order[if i < j then i else i + 1] {
    }
    forall k ensures k in rest <==> k in keys && k != order[j] {
      if k in rest {
        var i :| 0 <= i < |rest| && rest[i] == k;
      }
      if k in keys && k != order[j] {
        var i :| 0 <= i < |order| && order[i] == k;
        assert rest[if i < j then i else i - 1] == k;
      }
    }
  }

  /** Adding a key not yet listed to a key order gives a key order of the larger set. */
  lemma KeyOrderAppend(order: seq<string>, keys: set<string>, key: string)
    requires IsKeyOrder(order, keys) && key !in keys
    ensures IsKeyOrder(order + [key], keys + {key})
  {
  }

  /** Ranging one more option appends that option's flag. */
  lemma OptionFlagsAppendOne(order: seq<string>, key: string, options: map<string, string>)
    requires forall k :: k in order ==> k in options
    requires key in options
    ensures OptionFlags(order + [key], options) == OptionFlags(order, options) + [DefineFlag(key, options[key])]
  {
    assert (order + [key])[..|order|] == order;
  }

  /**
   * Appends one `-D<name>=<value>` flag per option to `flags`. Ranging over a Go map
   * visits its keys in an unspecified order, so the loop picks any key not yet
   * visited; the ghost `order` records the order it took.
   */
  method AppendOptionFlags(flags: seq<string>, options: map<string, string>)
    returns (result: seq<string>, ghost order: seq<string>)
    ensures IsKeyOrder(order, options.Keys)
    ensures result == flags + OptionFlags(order, options)
    ensures |result| == |flags| + |options| && result[..|flags|] == flags
    ensures forall k :: k in options ==> DefineFlag(k, options[k]) in result[|flags|..]
    ensures forall i :: |flags| <= i < |result| ==> IsOptionFlag(result[i], options)
  {
    result := flags;
    var remaining := options.Keys;
    order := [];
    while remaining != {}
      invariant remaining <= options.Keys
      invariant IsKeyOrder(order, options.Keys - remaining)
      invariant result == flags + OptionFlags(order, options)
      decreases remaining
    {
      var name :| name in remaining;
      result := result + [DefineFlag(name, options[name])];
      KeyOrderAppend(order, options.Keys - remaining, name);
      OptionFlagsAppendOne(order, name, options);
      assert options.Keys - remaining + {name} == options.Keys - (remaining - {name});
      order := order + [name];
      remaining := remaining - {name};
    }
    OptionFlagsAfter(flags, order, options);
  }

  /** Option flags appended after `flags`: `flags` stays as it was, and after it come
      one flag per option, every option's flag, and nothing but option flags. */
  lemma OptionFlagsAfter(flags: seq<string>, order: seq<string>, options: map<string, string>)
    requires IsKeyOrder(order, options.Keys)
    ensures var result := flags + OptionFlags(order, options);
      && |result| == |flags| + |options| && result[..|flags|] == flags
      && (forall k :: k in options ==> DefineFlag(k, options[k]) in result[|flags|..])
      && (forall i :: |flags| <= i < |result| ==> IsOptionFlag(result[i], options))
  {
    var opts := OptionFlags(order, options);
    var result := flags + opts;
    KeyOrderLength(order, options.Keys);
    OptionFlagsCover(order, options);
    assert result[|flags|..] == opts;
    forall i | |flags| <= i < |result| ensures IsOptionFlag(result[i], options) {
      var key := order[i - |flags|];
      assert result[i] == opts[i - |flags|] == DefineFlag(key, options[key]);
    }
  }

  /** Option flags of a concatenated order are the concatenation of the option flags. */
  lemma OptionFlagsAppend(a: seq<string>, b: seq<string>, options: map<string, string>)
    requires forall k :: k in a ==> k in options
    requires forall k :: k in b ==> k in options
    ensures OptionFlags(a + b, options) == OptionFlags(a, options) + OptionFlags(b, options)
  {
    var lhs, rhs := OptionFlags(a + b, options), OptionFlags(a, options) + OptionFlags(b, options);
    forall i | 0 <= i < |a + b| ensures lhs[i] == rhs[i] {
      if i >= |a| { assert (a + b)[i] == b[i - |a|]; }
    }
  }

  /** The option flags of an order, as a multiset, are those of the order without its
      entry at `j` plus the flag of that entry. */
  lemma OptionFlagsRemove(order: seq<string>, j: nat, options: map<string, string>)
    requires j < |order|
    requires forall k :: k in order ==> k in options
    ensures multiset(OptionFlags(order, options)) ==
      multiset(OptionFlags(order[..j] + order[j + 1..], options))
      + multiset{DefineFlag(order[j], options[order[j]])}
  {
    var before, key, after := order[..j], order[j], order[j + 1..];
    OptionFlagsSplit(order, j, options);
    OptionFlagsAppend(before, after, options);
    MultisetWithout(OptionFlags(before, options), DefineFlag(key, options[key]), OptionFlags(after, options));
  }

  /** The option flags of an order split around its entry at `j`. */
  lemma OptionFlagsSplit(order: seq<string>, j: nat, options: map<string, string>)
    requires j < |order|
    requires forall k :: k in order ==> k in options
    ensures OptionFlags(order, options) ==
      OptionFlags(order[..j], options) + ([DefineFlag(order[j], options[order[j]])] + OptionFlags(order[j + 1..], options))
  {
    var before, key, after := order[..j], order[j], order[j + 1..];
    var rest := [key] + after;
    assert order == before + rest;
    OptionFlagsAppend(before, rest, options);
    OptionFlagsAppend([key], after, options);
    var fb, fk, fa := OptionFlags(before, options), OptionFlags([key], options), OptionFlags(after, options);
    assert fk == [DefineFlag(key, options[key])];
    calc {
      OptionFlags(order, options);
      OptionFlags(before + rest, options);
      fb + OptionFlags(rest, options);
      fb + (fk + fa);
    }
  }

  lemma MultisetWithout(a: seq<string>, x: string, b: seq<string>)
    ensures multiset(a + ([x] + b)) == multiset(a + b) + multiset{x}
  {
    calc {
      multiset(a + ([x] + b));
      multiset(a) + multiset([x] + b);
      multiset(a) + multiset{x} + multiset(b);
      multiset(a + b) + multiset{x};
    }
  }

  /** Two orders of the same keys give the same option flags up to permutation:
      the order Go happens to range the map in changes only their order. */
  lemma {:induction false} OptionFlagsOrderIrrelevant(
    o1: seq<string>, o2: seq<string>, keys: set<string>, options: map<string, string>)
    requires IsKeyOrder(o1, keys) && IsKeyOrder(o2, keys)
    requires keys <= options.Keys
    ensures multiset(OptionFlags(o1, options)) == multiset(OptionFlags(o2, options))
  {
    if o1 != [] {
      var n := |o1| - 1;
      var last := o1[n];
      assert last in o2;
      var j :| 0 <= j < |o2| && o2[j] == last;
      KeyOrderRemove(o1, keys, n);
      KeyOrderRemove(o2, keys, j);
      var rest1, rest2 := o1[..n], o2[..j] + o2[j + 1..];
      assert o1[..n] + o1[n + 1..] == rest1;
      OptionFlagsOrderIrrelevant(rest1, rest2, keys - {last}, options);
      OptionFlagsRemove(o1, n, options);
      OptionFlagsRemove(o2, j, options);
    } else {
      KeyOrderLength(o1, keys);
      KeyOrderLength(o2, keys);
    }
  }

  /** Every option flag is a `-D` flag. */
  lemma OptionFlagsAreDefines(order: seq<string>, options: map<string, string>)
    requires forall k :: k in order ==> k in options
    ensures forall f :: f in OptionFlags(order, options) ==> |f| >= 2 && f[0] == '-' && f[1] == 'D'
  {
    var flags := OptionFlags(order, options);
    forall f | f in flags ensures |f| >= 2 && f[0] == '-' && f[1] == 'D' {
      var i :| 0 <= i < |flags| && flags[i] == f;
      assert f == DefineFlag(order[i], options[order[i]]);
    }
  }

  // ---------------------------------------------------------------------------
  // The flag list
  // ---------------------------------------------------------------------------

  /** The list has the 5 baseline flags, 3 more when the version gate is open, and
      exactly one more per option. */
  lemma FlagCount(clusterName: string, gateOpen: bool, options: map<string, string>, order: seq<string>)
    requires IsKeyOrder(order, options.Keys)
    ensures |Flags(clusterName, gateOpen, options, order)| == 5 + (if gateOpen then 3 else 0) + |options|
  {
    KeyOrderLength(order, options.Keys);
  }

  /** The list opens with the baseline; the gated block follows it immediately when the
      gate is open; every option contributes its `-D<name>=<value>` flag after them. */
  lemma FlagLayout(clusterName: string, gateOpen: bool, options: map<string, string>, order: seq<string>)
    requires IsKeyOrder(order, options.Keys)
    ensures var flags := Flags(clusterName, gateOpen, options, order);
      var fixed := if gateOpen then 8 else 5;
      && |flags| >= fixed
      && flags[..5] == BaselineFlags(clusterName)
      && (gateOpen ==> flags[5..8] == VersionGatedFlags)
      && flags[fixed..] == OptionFlags(order, options)
      && (forall k :: k in options ==> DefineFlag(k, options[k]) in flags[fixed..])
  {
    var fixedFlags, opts := FixedFlags(clusterName, gateOpen), OptionFlags(order, options);
    var flags := fixedFlags + opts;
    FixedFlagsLayout(clusterName, gateOpen);
    OptionFlagsCover(order, options);
    assert flags[..5] == fixedFlags[..5];
    if gateOpen {
      assert flags[5..8] == fixedFlags[5..8];
    }
    assert flags[|fixedFlags|..] == opts;
  }

  /** The fixed flags: the baseline, then the gated block exactly when the gate is open. */
  lemma FixedFlagsLayout(clusterName: string, gateOpen: bool)
    ensures var fixedFlags := FixedFlags(clusterName, gateOpen);
      && |fixedFlags| == (if gateOpen then 8 else 5)
      && fixedFlags[..5] == BaselineFlags(clusterName)
      && (gateOpen ==> fixedFlags[5..8] == VersionGatedFlags)
  {
  }

  /** Every option contributes its flag, whatever the order. */
  lemma OptionFlagsCover(order: seq<string>, options: map<string, string>)
    requires IsKeyOrder(order, options.Keys)
    ensures forall k :: k in options ==> DefineFlag(k, options[k]) in OptionFlags(order, options)
  {
    forall k | k in options ensures DefineFlag(k, options[k]) in OptionFlags(order, options) {
      var i :| 0 <= i < |order| && order[i] == k;
      assert OptionFlags(order, options)[i] == DefineFlag(k, options[k]);
    }
  }

  /** How a version-gated flag looks: an "-X" flag of length 32 or 20. The lengths are what
      tell the gated flags apart from the baseline's own "-X" flags, which are 8, 27, 28 and
      31 characters long; the cluster-name flag and the option flags are "-D" flags. */
  predicate GatedFlagShape(f: string)
  {
    |f| >= 2 && f[1] == 'X' && (|f| == 32 || |f| == 20)
  }

  lemma GatedFlagsHaveGatedShape()
    ensures forall f :: f in VersionGatedFlags ==> GatedFlagShape(f)
  {
  }

  lemma BaselineFlagsLackGatedShape(clusterName: string)
    ensures forall g :: g in BaselineFlags(clusterName) ==> !GatedFlagShape(g)
  {
  }

  /** No baseline flag and no option flag is one of the version-gated flags: those are
      "-X" flags of lengths 32 and 20, the baseline's "-X" flags have other lengths and
      everything else is a "-D" flag. */
  lemma GatedFlagsAreNew(clusterName: string, options: map<string, string>, order: seq<string>, f: string)
    requires forall k :: k in order ==> k in options
    requires f in VersionGatedFlags
    ensures f !in BaselineFlags(clusterName) && f !in OptionFlags(order, options)
  {
    GatedFlagsHaveGatedShape();
    BaselineFlagsLackGatedShape(clusterName);
    OptionFlagsAreDefines(order, options);
  }

  /** Each of the three version-gated flags is in the list exactly when the gate is open. */
  lemma GatedFlagsIffGateOpen(clusterName: string, gateOpen: bool, options: map<string, string>, order: seq<string>)
    requires IsKeyOrder(order, options.Keys)
    ensures forall f :: f in VersionGatedFlags ==> (f in Flags(clusterName, gateOpen, options, order) <==> gateOpen)
  {
    var base, opts := BaselineFlags(clusterName), OptionFlags(order, options);
    var flags := Flags(clusterName, gateOpen, options, order);
    forall f | f in VersionGatedFlags ensures f in flags <==> gateOpen {
      GatedFlagsAreNew(clusterName, options, order, f);
      if gateOpen {
        assert flags == base + VersionGatedFlags + opts;
      } else {
        assert flags == base + opts;
      }
    }
  }

  // ---------------------------------------------------------------------------
  // The joined string
  // ---------------------------------------------------------------------------

  /** The memory flags joined with spaces. */
  lemma MemoryJoin()
    ensures Strings.Join(MemoryFlags, " ") ==
      "-Xms512m" + " " + "-XX:+ExitOnOutOfMemoryError" + " " + "-XX:+CrashOnOutOfMemoryError" + " "
      + "-XX:+HeapDumpOnOutOfMemoryError"
  {
    var mem := MemoryFlags;
    assert Strings.Join(mem[2..], " ") == mem[2] + " " + mem[3] by {
      assert mem[2..][1..] == [mem[3]];
    }
    assert Strings.Join(mem[1..], " ") == mem[1] + " " + Strings.Join(mem[2..], " ") by {
      assert mem[1..][1..] == mem[2..];
    }
  }

  /** The baseline flags joined with spaces. */
  lemma BaselineJoin(clusterName: string)
    ensures Strings.Join(BaselineFlags(clusterName), " ") ==
      "-Xms512m" + " " + "-XX:+ExitOnOutOfMemoryError" + " " + "-XX:+CrashOnOutOfMemoryError" + " "
      + "-XX:+HeapDumpOnOutOfMemoryError" + " " + "-Dpravegaservice.clusterName=" + clusterName
  {
    var named := "-Dpravegaservice.clusterName=" + clusterName;
    assert BaselineFlags(clusterName) == MemoryFlags + [named];
    Strings.JoinAppend(MemoryFlags, [named], " ");
    assert Strings.Join([named], " ") == named;
    MemoryJoin();
  }

  /** The version-gated flags joined with spaces. */
  lemma GatedJoin()
    ensures Strings.Join(VersionGatedFlags, " ") ==
      "-XX:+UnlockExperimentalVMOptions" + " " + "-XX:+UseCGroupMemoryLimitForHeap" + " " + "-XX:MaxRAMFraction=2"
  {
    var gated := VersionGatedFlags;
    assert gated[1..][1..] == [gated[2]];
    assert Strings.Join(gated[1..], " ") == gated[1] + " " + gated[2];
  }

  /** `JAVA_OPTS` starts with the baseline flags joined with single spaces, whatever the
      gate and the options. */
  lemma BaselinePrefix(clusterName: string, gateOpen: bool, options: map<string, string>, order: seq<string>)
    requires forall k :: k in order ==> k in options
    ensures Strings.Join(BaselineFlags(clusterName), " ") <= Strings.Join(Flags(clusterName, gateOpen, options, order), " ")
  {
    JoinedFlags(clusterName, gateOpen, options, order);
  }

  /** The joined list is the joined baseline, then the joined gated block when the gate
      is open, then the joined option flags, each part separated from the next by one space. */
  lemma JoinedFlags(clusterName: string, gateOpen: bool, options: map<string, string>, order: seq<string>)
    requires forall k :: k in order ==> k in options
    ensures Strings.Join(Flags(clusterName, gateOpen, options, order), " ") ==
      Strings.Join(BaselineFlags(clusterName), " ")
      + (if gateOpen then " " + Strings.Join(VersionGatedFlags, " ") else "")
      + (if order == [] then "" else " " + Strings.Join(OptionFlags(order, options), " "))
  {
    var gated := if gateOpen then VersionGatedFlags else [];
    Strings.JoinAppend3(BaselineFlags(clusterName), gated, OptionFlags(order, options), " ");
  }

  lemma MemoryFlagsWithoutSpaces()
    ensures forall f :: f in MemoryFlags ==> ' ' !in f
  {
    forall f | f in MemoryFlags ensures ' ' !in f {
      MemoryFlagWithoutSpaces(f);
    }
  }

  /** Each memory flag is free of spaces, checked one flag at a time. */
  lemma MemoryFlagWithoutSpaces(f: string)
    requires f in MemoryFlags
    ensures ' ' !in f
  {
    if f == MemoryFlags[0] {
    } else if f == MemoryFlags[1] {
    } else if f == MemoryFlags[2] {
    } else {
      assert f == MemoryFlags[3];
    }
  }

  lemma GatedFlagsWithoutSpaces()
    ensures forall f :: f in VersionGatedFlags ==> ' ' !in f
  {
  }

  /** No fixed flag holds a space unless the cluster name does. */
  lemma FixedFlagsWithoutSpaces(clusterName: string, gateOpen: bool)
    requires ' ' !in clusterName
    ensures forall f :: f in FixedFlags(clusterName, gateOpen) ==> ' ' !in f
  {
    MemoryFlagsWithoutSpaces();
    GatedFlagsWithoutSpaces();
    assert ' ' !in "-Dpravegaservice.clusterName=";
  }

  /** No option flag holds a space unless an option name or value does. */
  lemma OptionFlagsWithoutSpaces(order: seq<string>, options: map<string, string>)
    requires forall k :: k in order ==> k in options
    requires forall k :: k in options ==> ' ' !in k && ' ' !in options[k]
    ensures forall f :: f in OptionFlags(order, options) ==> ' ' !in f
  {
    var flags := OptionFlags(order, options);
    forall f | f in flags ensures ' ' !in f {
      var i :| 0 <= i < |flags| && flags[i] == f;
      assert f == "-D" + order[i] + "=" + options[order[i]];
    }
  }

  /** Splitting the joined list at spaces gives the list back, as long as the cluster name
      and the option names and values hold no space (nothing escapes them). */
  lemma SplitJoinedFlags(clusterName: string, gateOpen: bool, options: map<string, string>, order: seq<string>)
    requires forall k :: k in order ==> k in options
    requires ' ' !in clusterName
    requires forall k :: k in options ==> ' ' !in k && ' ' !in options[k]
    ensures Strings.Split(Strings.Join(Flags(clusterName, gateOpen, options, order), " "), ' ')
         == Flags(clusterName, gateOpen, options, order)
  {
    var flags := Flags(clusterName, gateOpen, options, order);
    FixedFlagsWithoutSpaces(clusterName, gateOpen);
    OptionFlagsWithoutSpaces(order, options);
    assert forall i :: 0 <= i < |flags| ==> ' ' !in flags[i] by {
      forall i | 0 <= i < |flags| ensures ' ' !in flags[i] {
        assert flags[i] in FixedFlags(clusterName, gateOpen) || flags[i] in OptionFlags(order, options);
      }
    }
    Strings.SplitJoin(flags, ' ');
  }
}
