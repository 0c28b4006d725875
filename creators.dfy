/**
 * The two creator lookup tables of the factory: config type -> creator and
 * implementation name -> creator, how `addCreator` fills them, and how
 * `getExoCacheCreator` chooses a creator from them.
 */
module Creators {
  import opened Wrappers
  import opened Errors

  /**
   * A cache creator plugin: its class, the config type it expects and its set of
   * implementation names, which may be null.
   */
  datatype Creator = Creator(className: string, expectedType: string, implementations: Option<set<string>>)

  /** The creator chosen for a cache: a registered plugin or the built-in generic creator. */
  datatype CreatorChoice = Plugin(creator: Creator) | DefaultCreator

  /** The two lookup tables. */
  datatype CreatorTables = CreatorTables(byType: map<string, Creator>, byImpl: map<string, Creator>)

  /** The tables together with what `addCreator` did: returned, or threw. */
  datatype Registration = Registration(tables: CreatorTables, outcome: Outcome<FactoryError>)

  const NoCreators := CreatorTables(map[], map[])

  /** The part of a cache configuration that creator lookup reads: its class and its implementation name. */
  datatype CreatorKey = CreatorKey(configClass: string, implementation: Option<string>)

  /** Every alias in `imps`, mapped to `c`. */
  function Aliases(imps: set<string>, c: Creator): (m: map<string, Creator>)
    ensures m.Keys == imps
    ensures forall x :: x in imps ==> m[x] == c
  {
    map x | x in imps :: c
  }

  /**
   * `addCreator` over the creators in list order: each creator is first recorded under its
   * expected type, then, when its implementation set is null, registration stops with a
   * `NullPointerException`; otherwise each of its implementation names is recorded.
   * Nothing is ever removed from either table.
   */
  function RegisterCreators(t: CreatorTables, cs: seq<Creator>): (r: Registration)
    ensures t.byType.Keys <= r.tables.byType.Keys && t.byImpl.Keys <= r.tables.byImpl.Keys
    decreases |cs|
  {
    if cs == [] then Registration(t, Pass)
    else
      var c := cs[0];
      var typed := t.(byType := t.byType[c.expectedType := c]);
      match c.implementations
      case None => Registration(typed, Fail(NullImplementations))
      case Some(imps) => RegisterCreators(typed.(byImpl := typed.byImpl + Aliases(imps, c)), cs[1..])
  }

  ghost predicate AllHaveImplementations(cs: seq<Creator>) {
    forall j :: 0 <= j < |cs| ==> cs[j].implementations.Some?
  }

  /** `cs[j]` is the last creator in `cs` that expects config type `k`. */
  ghost predicate LastOfType(cs: seq<Creator>, j: int, k: string) {
    0 <= j < |cs| && cs[j].expectedType == k
    && forall j' :: j < j' < |cs| ==> cs[j'].expectedType != k
  }

  ghost predicate NoneOfType(cs: seq<Creator>, k: string) {
    forall j :: 0 <= j < |cs| ==> cs[j].expectedType != k
  }

  /** The alias set of `c` contains `x`. */
  ghost predicate Claims(c: Creator, x: string) {
    c.implementations.Some? && x in c.implementations.value
  }

  /** `cs[j]` is the last creator in `cs` whose implementation set contains `x`. */
  ghost predicate LastClaiming(cs: seq<Creator>, j: int, x: string) {
    0 <= j < |cs| && Claims(cs[j], x)
    && forall j' :: j < j' < |cs| ==> !Claims(cs[j'], x)
  }

  ghost predicate NoneClaiming(cs: seq<Creator>, x: string) {
    forall j :: 0 <= j < |cs| ==> !Claims(cs[j], x)
  }

  /** Registration throws exactly when some creator's implementation set is null. */
  lemma {:induction false} RegisterFailsIffNullSet(t: CreatorTables, cs: seq<Creator>)
    ensures RegisterCreators(t, cs).outcome.Pass? <==> AllHaveImplementations(cs)
    ensures RegisterCreators(t, cs).outcome.Fail? ==> RegisterCreators(t, cs).outcome.error == NullImplementations
    decreases |cs|
  {
    if cs != [] {
      var c := cs[0];
      var typed := t.(byType := t.byType[c.expectedType := c]);
      if c.implementations.Some? {
        var next := typed.(byImpl := typed.byImpl + Aliases(c.implementations.value, c));
        RegisterFailsIffNullSet(next, cs[1..]);
        if AllHaveImplementations(cs[1..]) {
          forall j | 0 <= j < |cs| ensures cs[j].implementations.Some? {
            if j > 0 { assert cs[j] == cs[1..][j - 1]; }
          }
        } else {
          var j :| 0 <= j < |cs[1..]| && cs[1..][j].implementations.None?;
          assert cs[j + 1].implementations.None?;
        }
      }
    }
  }

  /**
   * After a registration that does not throw, the config-type table maps `k` to the last
   * creator expecting `k`; when no creator expects `k`, the entry is as it was.
   */
  lemma {:induction false} RegisterByTypeLastWins(t: CreatorTables, cs: seq<Creator>, k: string)
    requires AllHaveImplementations(cs)
    ensures forall j :: LastOfType(cs, j, k) ==>
      k in RegisterCreators(t, cs).tables.byType && RegisterCreators(t, cs).tables.byType[k] == cs[j]
    ensures NoneOfType(cs, k) ==>
      (k in RegisterCreators(t, cs).tables.byType <==> k in t.byType)
      && (k in t.byType ==> RegisterCreators(t, cs).tables.byType[k] == t.byType[k])
    decreases |cs|
  {
    if cs != [] {
      var c := cs[0];
      var typed := t.(byType := t.byType[c.expectedType := c]);
      var next := typed.(byImpl := typed.byImpl + Aliases(c.implementations.value, c));
      assert RegisterCreators(t, cs) == RegisterCreators(next, cs[1..]);
      assert AllHaveImplementations(cs[1..]) by {
        forall j | 0 <= j < |cs[1..]| ensures cs[1..][j].implementations.Some? {
          assert cs[1..][j] == cs[j + 1];
        }
      }
      RegisterByTypeLastWins(next, cs[1..], k);
      forall j | LastOfType(cs, j, k)
        ensures k in RegisterCreators(t, cs).tables.byType && RegisterCreators(t, cs).tables.byType[k] == cs[j]
      {
        if j == 0 {
          assert NoneOfType(cs[1..], k) by {
            forall j' | 0 <= j' < |cs[1..]| ensures cs[1..][j'].expectedType != k {
              assert cs[1..][j'] == cs[j' + 1];
            }
          }
        } else {
          assert LastOfType(cs[1..], j - 1, k) by {
            forall j' | j - 1 < j' < |cs[1..]| ensures cs[1..][j'].expectedType != k {
              assert cs[1..][j'] == cs[j' + 1];
            }
          }
        }
      }
      if NoneOfType(cs, k) {
        assert cs[0].expectedType != k;
        assert NoneOfType(cs[1..], k) by {
          forall j' | 0 <= j' < |cs[1..]| ensures cs[1..][j'].expectedType != k {
            assert cs[1..][j'] == cs[j' + 1];
          }
        }
      }
    }
  }

  /**
   * After a registration that does not throw, the implementation table maps `x` to the last
   * creator whose set contains `x`; when no set contains `x` (in particular when every set is
   * empty), the entry is as it was.
   */
  lemma {:induction false} RegisterByImplLastWins(t: CreatorTables, cs: seq<Creator>, x: string)
    requires AllHaveImplementations(cs)
    ensures forall j :: LastClaiming(cs, j, x) ==>
      x in RegisterCreators(t, cs).tables.byImpl && RegisterCreators(t, cs).tables.byImpl[x] == cs[j]
    ensures NoneClaiming(cs, x) ==>
      (x in RegisterCreators(t, cs).tables.byImpl <==> x in t.byImpl)
      && (x in t.byImpl ==> RegisterCreators(t, cs).tables.byImpl[x] == t.byImpl[x])
    decreases |cs|
  {
    if cs != [] {
      var c := cs[0];
      var typed := t.(byType := t.byType[c.expectedType := c]);
      var next := typed.(byImpl := typed.byImpl + Aliases(c.implementations.value, c));
      assert RegisterCreators(t, cs) == RegisterCreators(next, cs[1..]);
      assert AllHaveImplementations(cs[1..]) by {
        forall j | 0 <= j < |cs[1..]| ensures cs[1..][j].implementations.Some? {
          assert cs[1..][j] == cs[j + 1];
        }
      }
      RegisterByImplLastWins(next, cs[1..], x);
      forall j | LastClaiming(cs, j, x)
        ensures x in RegisterCreators(t, cs).tables.byImpl && RegisterCreators(t, cs).tables.byImpl[x] == cs[j]
      {
        if j == 0 {
          assert NoneClaiming(cs[1..], x) by {
            forall j' | 0 <= j' < |cs[1..]| ensures !Claims(cs[1..][j'], x) {
              assert cs[1..][j'] == cs[j' + 1];
            }
          }
        } else {
          assert LastClaiming(cs[1..], j - 1, x) by {
            forall j' | j - 1 < j' < |cs[1..]| ensures !Claims(cs[1..][j'], x) {
              assert cs[1..][j'] == cs[j' + 1];
            }
          }
        }
      }
      if NoneClaiming(cs, x) {
        assert !Claims(cs[0], x);
        assert NoneClaiming(cs[1..], x) by {
          forall j' | 0 <= j' < |cs[1..]| ensures !Claims(cs[1..][j'], x) {
            assert cs[1..][j'] == cs[j' + 1];
          }
        }
      }
    }
  }

  /**
   * When the creator at index `i` is the first with a null set, registration throws after
   * recording that creator under its config type and every earlier creator in full; the
   * offending creator's aliases and every later creator are not recorded.
   */
  lemma {:induction false} RegisterStopsAtNullSet(t: CreatorTables, cs: seq<Creator>, i: nat)
    requires i < |cs| && cs[i].implementations.None?
    requires AllHaveImplementations(cs[..i])
    ensures var before := RegisterCreators(t, cs[..i]).tables;
      RegisterCreators(t, cs) ==
        Registration(before.(byType := before.byType[cs[i].expectedType := cs[i]]), Fail(NullImplementations))
    decreases i
  {
    if i == 0 {
      assert cs[..0] == [];
    } else {
      var c := cs[0];
      assert c == cs[..i][0];
      var typed := t.(byType := t.byType[c.expectedType := c]);
      var next := typed.(byImpl := typed.byImpl + Aliases(c.implementations.value, c));
      var rest := cs[1..][..i - 1];
      assert rest == cs[..i][1..];
      assert AllHaveImplementations(rest) by {
        forall j | 0 <= j < |rest| ensures rest[j].implementations.Some? {
          assert rest[j] == cs[..i][j + 1];
        }
      }
      RegisterStopsAtNullSet(next, cs[1..], i - 1);
    }
  }

  /**
   * `getExoCacheCreator`: the creator registered for the config's class wins; failing that,
   * the creator registered for its implementation name; failing that, the default creator.
   * A chosen plugin is always one the tables hold.
   */
  function ResolveCreator(t: CreatorTables, key: CreatorKey): (r: CreatorChoice)
    ensures key.configClass in t.byType ==> r == Plugin(t.byType[key.configClass])
    ensures key.configClass !in t.byType && key.implementation.Some? && key.implementation.value in t.byImpl
      ==> r == Plugin(t.byImpl[key.implementation.value])
    ensures r == DefaultCreator <==>
      key.configClass !in t.byType && (key.implementation.None? || key.implementation.value !in t.byImpl)
    ensures r.Plugin? ==> r.creator in t.byType.Values || r.creator in t.byImpl.Values
  {
    if key.configClass in t.byType then Plugin(t.byType[key.configClass])
    else if key.implementation.Some? && key.implementation.value in t.byImpl then
      Plugin(t.byImpl[key.implementation.value])
    else DefaultCreator
  }

  /** With no creator registered, every cache gets the default creator. */
  lemma NoCreatorsResolvesToDefault(key: CreatorKey)
    ensures ResolveCreator(NoCreators, key) == DefaultCreator
  {
  }

  /**
   * Registering creators and then resolving: a config whose class some creator expects gets
   * the last such creator; a config whose class no table entry matches but whose implementation
   * name some creator claims gets the last creator claiming it.
   */
  lemma ResolveAfterRegister(t: CreatorTables, cs: seq<Creator>, key: CreatorKey)
    requires AllHaveImplementations(cs)
    ensures forall j :: LastOfType(cs, j, key.configClass) ==>
      ResolveCreator(RegisterCreators(t, cs).tables, key) == Plugin(cs[j])
    ensures key.configClass !in t.byType && NoneOfType(cs, key.configClass) && key.implementation.Some? ==>
      forall j :: LastClaiming(cs, j, key.implementation.value) ==>
        ResolveCreator(RegisterCreators(t, cs).tables, key) == Plugin(cs[j])
  {
    RegisterByTypeLastWins(t, cs, key.configClass);
    if key.implementation.Some? {
      RegisterByImplLastWins(t, cs, key.implementation.value);
    }
  }
}
