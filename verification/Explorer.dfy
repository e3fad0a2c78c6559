/**
 The simulator as it runs: a graph and three fact maps rewritten in place,
 change by change, with reachability refreshed when a change can alter it.
 */
module Explorer {
  import opened Model
  import opened Roles
  import opened Steps
  import opened Authority
  import opened Simulation

  function WithMemberships(g: RoleGraph, m: Memberships): RoleGraph {
    g.(memberships := m.edges, edgeGrantors := m.grantors, edgeOptions := m.options)
  }

  class Simulator {
    const context: Context
    var graph: RoleGraph
    var setRole: EdgeFacts
    var usage: EdgeFacts
    var admin: EdgeFacts
    var attributes: Attributes

    ghost function State(): World
      reads this
    {
      World(graph, Facts(setRole, usage, admin), attributes)
    }

    constructor (x: Context, w: World)
      ensures context == x && State() == w
    {
      context := x;
      graph := w.graph;
      setRole, usage, admin := w.facts.setRole, w.facts.usage, w.facts.admin;
      attributes := w.attributes;
    }

    /** Graph and facts have taken `change`; the attributes have not. */
    twostate predicate Stepped(change: Change)
      reads this
    {
      && graph == Apply(old(graph), change)
      && Facts(setRole, usage, admin)
         == FactsAfter(context, MembershipsOf(old(graph)), Facts(old(setRole), old(usage), old(admin)), change)
      && attributes == old(attributes)
    }

    method CreateRole(change: Change)
      requires change.CreateRole?
      modifies this
      ensures Stepped(change)
    {
      graph := graph.(roles := graph.roles[change.name := change.state]);
      if change.name != context.executor.role {
        var key := (change.name, context.executor.role);
        setRole := setRole[key := context.executor.newRoleSetRole];
        usage := usage[key := context.executor.newRoleInherit];
        admin := admin[key := context.executor.newRoleAdminOption];
      }
    }

    method AlterRole(change: Change)
      requires change.AlterRole?
      modifies this
      ensures Stepped(change)
    {
      if change.name in graph.roles {
        var state := graph.roles[change.name];
        for i := 0 to |change.attributes|
          invariant state == ApplyAttributes(graph.roles[change.name], change.attributes[..i])
          invariant graph == old(graph) && setRole == old(setRole) && usage == old(usage) && admin == old(admin)
          invariant attributes == old(attributes)
        {
          assert change.attributes[..i + 1][..i] == change.attributes[..i];
          state := ApplyAttribute(state, change.attributes[i]);
        }
        assert change.attributes[..|change.attributes|] == change.attributes;
        graph := graph.(roles := graph.roles[change.name := state]);
      }
    }

    /** A grantor's entry shrinks; what all entries still record is reported. */
    method ShrinkEntry(key: GrantKey, privileges: Privileges, grantor: string) returns (remaining: Privileges)
      requires key in graph.entryGrantors
      modifies this`graph
      ensures var entries := ReduceEntry(old(graph).entryGrantors[key], grantor, privileges);
        && graph == old(graph).(entryGrantors := old(graph).entryGrantors[key := entries])
        && remaining == EntryUnion(entries)
    {
      var entries := graph.entryGrantors[key];
      if grantor in entries {
        var left := entries[grantor] - privileges;
        entries := if left == {} then entries - {grantor} else entries[grantor := left];
      }
      graph := graph.(entryGrantors := graph.entryGrantors[key := entries]);
      remaining := EntryUnion(entries);
    }

    method Revoke(change: Change)
      requires change.Revoke?
      modifies this
      ensures Stepped(change)
    {
      var key, privileges, grantor := change.key, change.privileges, change.grantor;
      var remaining: Privileges := {};
      if grantor.Some? && key in graph.entryGrantors {
        remaining := ShrinkEntry(key, privileges, grantor.value);
      }
      if key in graph.grants {
        var held := if remaining != {} then remaining else graph.grants[key] - privileges;
        graph := graph.(grants := if held == {} then graph.grants - {key} else graph.grants[key := held]);
      }
      if key in graph.entryGrantors && graph.entryGrantors[key] == map[] {
        graph := graph.(entryGrantors := graph.entryGrantors - {key});
      }
      assert graph.entryGrantors == EntriesAfter(old(graph), change);
      assert graph.grants == GrantsAfter(old(graph), change);
    }

    /** A tuple expected absent starts with every option off. */
    method BindNewTuple(p: Pair, via: string, binding: Option<OptionBinding>)
      modifies this`graph
      ensures graph == WithMemberships(old(graph), BindTuple(MembershipsOf(old(graph)), p, via, binding))
    {
      if graph.CompleteOptions(p).Some? && binding.Some? && binding.value.expected.Absent?
         && via !in graph.edgeOptions[p] {
        graph := graph.(
          edgeOptions := graph.edgeOptions[p := graph.edgeOptions[p][via := NO_OPTIONS]],
          edgeGrantors := graph.edgeGrantors[p := graph.edgeGrantors[p] + {via}]);
      }
    }

    /** One tuple is overwritten and, when all are known, the effective edge follows. */
    method OverwriteTuple(p: Pair, via: string, inherit: Option<bool>, adm: Option<bool>, complete: bool)
      requires complete == MembershipsOf(graph).Complete(p)
      modifies this`graph
      ensures graph == WithMemberships(old(graph), Overwritten(MembershipsOf(old(graph)), p, via, inherit, adm))
    {
      if p in graph.edgeOptions && via in graph.edgeOptions[p] {
        var options := graph.edgeOptions[p][via := Overwrite(graph.edgeOptions[p][via], inherit, adm)];
        if complete {
          graph := graph.(edgeOptions := graph.edgeOptions[p := options],
              memberships := WithEdge(graph.memberships, p, options));
        } else {
          graph := graph.(edgeOptions := graph.edgeOptions[p := options]);
        }
      }
    }

    method UpdateMemberOptions(change: Change)
      requires change.UpdateMemberOptions?
      modifies this
      ensures Stepped(change)
    {
      var p := (change.role, change.member);
      BindNewTuple(p, change.viaGrantor, change.binding);
      var complete := graph.CompleteOptions(p).Some?;
      var known := complete && change.viaGrantor in graph.edgeOptions[p];
      OverwriteTuple(p, change.viaGrantor, change.setInherit, change.setAdmin, complete);
      if known {
        usage := usage[p := CapabilityOf(AnyInherit(graph.edgeOptions[p]))];
        admin := admin[p := CapabilityOf(AnyAdmin(graph.edgeOptions[p]))];
      } else {
        if change.setInherit.Some? {
          usage := usage[p := Unknown];
        }
        if change.setAdmin.Some? {
          admin := admin[p := Unknown];
        }
      }
    }

    /** Forget one grantor's edge, or the whole pair once no edge survives. */
    method RemoveEdge(p: Pair, grantor: Option<string>) returns (complete: bool, preserve: bool)
      modifies this`graph
      ensures graph == WithMemberships(old(graph), Removed(MembershipsOf(old(graph)), p, grantor))
      ensures complete <==> old(graph).CompleteOptions(p).Some?
      ensures preserve <==> Survives(MembershipsOf(old(graph)), p, grantor)
    {
      complete := graph.CompleteOptions(p).Some?;
      preserve := false;
      if grantor.Some? {
        if p in graph.edgeOptions {
          graph := graph.(edgeOptions := graph.edgeOptions[p := graph.edgeOptions[p] - {grantor.value}]);
        }
        if p in graph.edgeGrantors {
          graph := graph.(edgeGrantors := graph.edgeGrantors[p := graph.edgeGrantors[p] - {grantor.value}]);
          preserve := graph.edgeGrantors[p] != {};
        }
      }
      if !preserve {
        graph := graph.(
          edgeOptions := graph.edgeOptions - {p},
          edgeGrantors := graph.edgeGrantors - {p},
          memberships := WithoutPair(graph.memberships, p));
      } else if complete {
        var options := graph.edgeOptions[p];
        graph := graph.(memberships := WithoutPair(graph.memberships, p)
          + {MembershipEdge(p.0, p.1, AnyInherit(options), AnyAdmin(options))});
      }
    }

    method RemoveMember(change: Change)
      requires change.RemoveMember?
      modifies this
      ensures Stepped(change)
    {
      var p := (change.role, change.member);
      var complete, preserve := RemoveEdge(p, change.grantor);
      if !preserve {
        setRole, usage, admin := setRole - {p}, usage - {p}, admin - {p};
      } else if complete {
        var options := graph.edgeOptions[p];
        setRole := setRole[p := CapabilityOf(AnySet(options))];
        usage := usage[p := CapabilityOf(AnyInherit(options))];
        admin := admin[p := CapabilityOf(AnyAdmin(options))];
      } else {
        setRole := setRole[p := SetRoleDefault(context.version)];
        usage := usage[p := Unknown];
        admin := admin[p := Unknown];
      }
    }

    method AddMember(change: Change)
      requires change.AddMember?
      modifies this
      ensures Stepped(change)
    {
      var p := (change.role, change.member);
      graph := graph.(memberships := graph.memberships + {MembershipEdge(p.0, p.1, change.inherit, change.admin)});
      setRole := setRole[p := if context.version >= 16 then context.executor.newMembershipSetRole else Allowed];
      usage := usage[p := CapabilityOf(change.inherit)];
      admin := admin[p := CapabilityOf(change.admin)];
    }

    method DropRole(change: Change)
      requires change.DropRole?
      modifies this
      ensures Stepped(change)
    {
      var n := change.name;
      graph := graph.(
        roles := graph.roles - {n},
        memberships := set e | e in graph.memberships && e.role != n && e.member != n);
      setRole := map p | p in setRole && p.0 != n && p.1 != n :: setRole[p];
      usage := map p | p in usage && p.0 != n && p.1 != n :: usage[p];
      admin := map p | p in admin && p.0 != n && p.1 != n :: admin[p];
    }

    method DropOwned(change: Change)
      requires change.DropOwned?
      modifies this
      ensures Stepped(change)
    {
      var role := change.role;
      graph := graph.(
        schemas := map n | n in graph.schemas && graph.schemas[n].owner != Some(role) :: graph.schemas[n],
        grants := map k | k in graph.grants && k.role.AsString() != role :: graph.grants[k],
        entryGrantors := map k | k in graph.entryGrantors && k.role.AsString() != role :: graph.entryGrantors[k],
        defaults := map k | k in graph.defaults && k.owner != role && k.grantee.AsString() != role
                      :: graph.defaults[k]);
    }

    /** Schema changes move owners and owner privileges only. */
    method ChangeSchemas(change: Change)
      requires || change.CreateSchema? || change.AlterSchemaOwner?
               || change.EnsureSchemaOwnerPrivileges? || change.ReassignOwned?
      modifies this
      ensures Stepped(change)
    {
      var schemas := graph.schemas;
      if change.CreateSchema? {
        schemas := schemas[change.name := SchemaState(change.schemaOwner, {})];
      } else if change.ReassignOwned? {
        schemas := map n | n in schemas :: Reassign(schemas[n], change.role, change.successor);
      } else if change.name in schemas {
        var s := schemas[change.name];
        schemas := schemas[change.name :=
          if change.AlterSchemaOwner? then s.(owner := Some(change.owner))
          else s.(ownerPrivileges := s.ownerPrivileges + change.privileges)];
      }
      graph := graph.(schemas := schemas);
    }

    /** Grants and default privileges extend or shrink one key. */
    method ChangePrivileges(change: Change)
      requires change.Grant? || change.SetDefault? || change.RevokeDefault?
      modifies this
      ensures Stepped(change)
    {
      if change.Grant? {
        var held := if change.key in graph.grants then graph.grants[change.key] else {};
        graph := graph.(grants := graph.grants[change.key := held + change.privileges]);
      } else if change.SetDefault? {
        var k := change.defaultKey;
        var held := if k in graph.defaults then graph.defaults[k] else {};
        graph := graph.(defaults := graph.defaults[k := held + change.privileges]);
      } else if change.defaultKey in graph.defaults {
        var k := change.defaultKey;
        var left := graph.defaults[k] - change.privileges;
        graph := graph.(defaults := if left == {} then graph.defaults - {k} else graph.defaults[k := left]);
      }
    }

    /** One step of the simulation, in place. */
    method ApplyChange(change: Change)
      modifies this
      ensures Stepped(change)
    {
      match change
      case CreateRole(_, _) => CreateRole(change);
      case CreateSchema(_, _) => ChangeSchemas(change);
      case AlterSchemaOwner(_, _) => ChangeSchemas(change);
      case EnsureSchemaOwnerPrivileges(_, _, _) => ChangeSchemas(change);
      case AlterRole(_, _) => AlterRole(change);
      case SetComment(n, comment) =>
        if n in graph.roles {
          graph := graph.(roles := graph.roles[n := graph.roles[n].(comment := comment)]);
        }
      case Grant(_, _) => ChangePrivileges(change);
      case Revoke(_, _, _) => Revoke(change);
      case SetDefault(_, _) => ChangePrivileges(change);
      case RevokeDefault(_, _) => ChangePrivileges(change);
      case AddMember(_, _, _, _) => AddMember(change);
      case UpdateMemberOptions(_, _, _, _, _, _) => UpdateMemberOptions(change);
      case RemoveMember(_, _, _) => RemoveMember(change);
      case ReassignOwned(_, _) => ChangeSchemas(change);
      case DropOwned(_) => DropOwned(change);
      case TerminateSessions(_) =>
      case SetPassword(_, _) =>
      case DropRole(_) => DropRole(change);
    }

    /** The executor's own attributes follow the plan's changes to its role. */
    method ApplyAttributeChanges(change: Change)
      modifies this`attributes
      ensures attributes == AttributesAfter(context, old(attributes), change)
    {
      if change.AlterRole? && change.name == context.executor.role {
        for i := 0 to |change.attributes|
          invariant attributes == AttributesAfterAll(old(attributes), change.attributes[..i])
        {
          assert change.attributes[..i + 1][..i] == change.attributes[..i];
          match change.attributes[i] {
            case Superuser(on) => attributes := attributes.(superuser := on);
            case Createrole(on) => attributes := attributes.(createrole := CapabilityOf(on));
            case _ =>
          }
        }
        assert change.attributes[..|change.attributes|] == change.attributes;
      }
    }

    method Advance(change: Change)
      modifies this
      ensures State() == WorldStep(context)(old(State()), change)
    {
      ApplyChange(change);
      ApplyAttributeChanges(change);
    }
  }
}
