/** Migrating the stored state of a project to another backend
    (launchflow/flows/lf_cloud_migration.py:26-103, 171-252). */
module Migration {
  import opened Options

  type Name = string
  type Data = string

  /** A resource or service: its record, and its tofu states by module. */
  datatype Entity = Entity(record: Data, tofu: map<Name, Data>)

  /** What is stored below one environment; the environment's own record may be missing. */
  datatype Environment = Environment(
    record: Option<Data>, tofu: Option<Data>, resources: map<Name, Entity>, services: map<Name, Entity>)

  type Store = map<Name, Environment>

  const NOTHING := Environment(None, None, map[], map[])

  function At(store: Store, e: Name): Environment {
    if e in store then store[e] else NOTHING
  }

  /** Records that are there stay, with the tofu state that goes with them. */
  function MergeEnvironment(source: Environment, target: Environment): Environment {
    Environment(
      if target.record.Some? then target.record else source.record,
      if target.record.Some? || source.tofu.None? then target.tofu else source.tofu,
      source.resources + target.resources,
      source.services + target.services)
  }

  function Merge(source: Store, target: Store): Store {
    map e | e in source.Keys + target.Keys ::
      if e in source then MergeEnvironment(source[e], At(target, e)) else target[e]
  }

  /** The target has every record of the source's environment. */
  predicate Covers(target: Environment, source: Environment) {
    && target.record.Some?
    && source.resources.Keys <= target.resources.Keys && source.services.Keys <= target.services.Keys
  }

  predicate SourceValid(source: Store) {
    forall e <- source :: source[e].record.Some?
  }

  /// What a merge is
  /// ---------------

  /** Every record of the target is kept as it is. */
  ghost predicate Keeps(before: Environment, after: Environment) {
    && (before.record.Some? ==> after.record == before.record && after.tofu == before.tofu)
    && (forall n <- before.resources :: n in after.resources && after.resources[n] == before.resources[n])
    && (forall n <- before.services :: n in after.services && after.services[n] == before.services[n])
  }

  ghost predicate KeepsAll(before: Store, after: Store) {
    forall e <- before :: e in after && Keeps(before[e], after[e])
  }

  lemma MergeKeepsTarget(source: Store, target: Store)
    ensures KeepsAll(target, Merge(source, target))
  {
  }

  /** Every record of the source that the target lacked is there, with its tofu states,
      and nothing else is added. */
  lemma MergeAddsMissing(source: Store, target: Store, e: Name, n: Name)
    requires SourceValid(source) && e in source
    ensures e in Merge(source, target) && Covers(Merge(source, target)[e], source[e])
    ensures At(target, e).record.None? ==> Merge(source, target)[e].record == source[e].record
    ensures At(target, e).record.None? && source[e].tofu.Some? ==> Merge(source, target)[e].tofu == source[e].tofu
    ensures At(target, e).record.None? && source[e].tofu.None? ==> Merge(source, target)[e].tofu == At(target, e).tofu
    ensures At(target, e).record.Some? ==>
      Merge(source, target)[e].record == target[e].record && Merge(source, target)[e].tofu == target[e].tofu
    ensures n in source[e].resources && n !in At(target, e).resources ==>
      Merge(source, target)[e].resources[n] == source[e].resources[n]
    ensures n in source[e].services && n !in At(target, e).services ==>
      Merge(source, target)[e].services[n] == source[e].services[n]
    ensures n in Merge(source, target)[e].resources ==> n in source[e].resources || n in At(target, e).resources
    ensures n in Merge(source, target)[e].services ==> n in source[e].services || n in At(target, e).services
    ensures Merge(source, target).Keys == source.Keys + target.Keys
    ensures forall other :: other in target && other !in source ==> Merge(source, target)[other] == target[other]
  {
  }

  /** Merging changes nothing exactly when the target covers the source already. */
  lemma MergeIsNoopIff(source: Store, target: Store)
    requires SourceValid(source)
    ensures Merge(source, target) == target <==> forall e <- source :: e in target && Covers(target[e], source[e])
  {
    if forall e <- source :: e in target && Covers(target[e], source[e]) {
      forall e | e in target ensures Merge(source, target)[e] == target[e] {
        if e in source {
          assert source[e].resources + target[e].resources == target[e].resources;
          assert source[e].services + target[e].services == target[e].services;
        }
      }
      assert Merge(source, target).Keys == target.Keys;
    } else if Merge(source, target) == target {
      forall e | e in source ensures e in target && Covers(target[e], source[e]) {
        assert e in Merge(source, target);
        assert (source[e].resources + At(target, e).resources).Keys ==
          source[e].resources.Keys + At(target, e).resources.Keys;
      }
    }
  }

  /** A second run finds nothing to do. */
  lemma MergeTwice(source: Store, target: Store)
    requires SourceValid(source)
    ensures Merge(source, Merge(source, target)) == Merge(source, target)
  {
    var once := Merge(source, target);
    forall e | e in source ensures e in once && Covers(once[e], source[e]) {
      MergeAddsMissing(source, target, e, "");
    }
    MergeIsNoopIff(source, once);
  }

  /// The migration
  /// -------------

  class Migrator {
    const source: Store
    const local: bool
    var target: Store

    constructor (source: Store, local: bool, target: Store)
      ensures this.source == source && this.local == local && this.target == target
    {
      this.source, this.local, this.target := source, local, target;
    }

    /** `_migrate_resource` and `_migrate_service`, on the entities of one kind. The
        record is saved before the tofu states are read, and reading them raises
        unless the source is local. */
    method MigrateEntities(from: map<Name, Entity>, into: map<Name, Entity>)
      returns (merged: map<Name, Entity>, raised: bool)
      ensures !raised ==> merged == from + into
      ensures raised <==> !local && !(from.Keys <= into.Keys)
      ensures into.Keys <= merged.Keys && forall n <- into :: merged[n] == into[n]
      ensures raised ==> exists n <- from :: n !in into && merged == into[n := Entity(from[n].record, map[])]
    {
      merged := into;
      var todo := from.Keys;
      while todo != {}
        invariant todo <= from.Keys
        invariant merged == (map n | n in from && n !in todo :: from[n]) + into
        invariant !local ==> merged == into && from.Keys - todo <= into.Keys
      {
        var n :| n in todo;
        if n !in merged {
          merged := merged[n := Entity(from[n].record, map[])];
          if !local {
            return merged, true;
          }
          merged := merged[n := from[n]];
        }
        todo := todo - {n};
      }
      assert (map n | n in from && n !in todo :: from[n]) == from;
      return merged, false;
    }

    /** `_migrate_environment`, on what the target stores below the environment. */
    method MigrateEnvironment(s: Environment, t: Environment) returns (merged: Environment, raised: bool)
      requires s.record.Some?
      ensures !raised ==> merged == MergeEnvironment(s, t)
      ensures raised <==> !local && !Covers(t, s)
      ensures Keeps(t, merged)
    {
      merged := t;
      if t.record.None? {
        merged := merged.(record := s.record);
        if !local {
          return merged, true;
        }
        if s.tofu.Some? {
          merged := merged.(tofu := s.tofu);
        }
      }
      var resources, resourcesRaised := MigrateEntities(s.resources, merged.resources);
      merged := merged.(resources := resources);
      if resourcesRaised {
        return merged, true;
      }
      var services, servicesRaised := MigrateEntities(s.services, merged.services);
      merged := merged.(services := services);
      return merged, servicesRaised;
    }

    /** `migrate`, environment by environment. It ends without an error exactly when the
        source is local or has nothing to add; then the target is the merge. Whatever
        happens, every record of the target is kept. */
    method Migrate() returns (raised: bool)
      requires SourceValid(source)
      modifies this
      ensures !raised ==> target == Merge(source, old(target))
      ensures raised <==> !local && exists e <- source :: !Covers(At(old(target), e), source[e])
      ensures KeepsAll(old(target), target)
    {
      ghost var before := target;
      var todo := source.Keys;
      while todo != {}
        invariant todo <= source.Keys
        invariant target == Merge(Without(source, todo), before)
        invariant !local ==> forall e <- source :: e !in todo ==> Covers(At(before, e), source[e])
      {
        var e :| e in todo;
        MergeKeepsTarget(Without(source, todo), before);
        MergeStep(source, todo, before, e);
        var merged;
        merged, raised := MigrateEnvironment(source[e], At(target, e));
        if raised {
          KeepsOne(before, target, e, merged);
          target := target[e := merged];
          return;
        }
        target := target[e := merged];
        todo := todo - {e};
      }
      assert Without(source, {}) == source;
      MergeKeepsTarget(source, before);
      return false;
    }
  }

  function Without(source: Store, names: set<Name>): Store {
    map e | e in source && e !in names :: source[e]
  }

  lemma MergeStep(source: Store, todo: set<Name>, before: Store, e: Name)
    requires e in source && e in todo
    ensures At(Merge(Without(source, todo), before), e) == At(before, e)
    ensures Merge(Without(source, todo - {e}), before) ==
            Merge(Without(source, todo), before)[e := MergeEnvironment(source[e], At(before, e))]
  {
  }

  lemma KeepsOne(before: Store, target: Store, e: Name, merged: Environment)
    requires KeepsAll(before, target) && At(target, e) == At(before, e) && Keeps(At(target, e), merged)
    ensures KeepsAll(before, target[e := merged])
  {
  }
}
