/**
 The two clusters and the backend clients as objects. Every external write of a reconciler goes
 through one of these methods; the ghost log records them in order.
 */
module SystemState {
  import opened Wrappers
  import opened Conditions
  import opened Backend
  import opened Api

  class System {
    var instances: map<string, Instance>
    var projectEntities: map<Key, ProjectEntity>
    var trusts: map<Key, Trust>
    var entities: map<Key, Entity>
    var bindings: map<Key, Binding>
    var backends: map<string, State>
    ghost var log: seq<Write>

    ghost function View(): World
      reads this
    {
      World(instances, projectEntities, trusts, entities, bindings, backends)
    }

    constructor ()
      ensures View() == World(map[], map[], map[], map[], map[], map[]) && log == []
    {
      instances, projectEntities, trusts, entities, bindings, backends := map[], map[], map[], map[], map[], map[];
      log := [];
    }

    // ---- Status updates ---------------------------------------------------------------------

    method UpdateInstanceStatus(name: string, status: InstanceStatus)
      requires name in instances
      modifies `instances, `log
      ensures log == old(log) + [PutInstance(name, status)]
      ensures View() == Apply(old(View()), PutInstance(name, status))
    {
      instances := instances[name := instances[name].(status := status)];
      log := log + [PutInstance(name, status)];
    }

    method UpdateProjectEntityStatus(key: Key, status: ProjectEntityStatus)
      requires key in projectEntities
      modifies `projectEntities, `log
      ensures log == old(log) + [PutProjectEntity(key, status)]
      ensures View() == Apply(old(View()), PutProjectEntity(key, status))
    {
      projectEntities := projectEntities[key := projectEntities[key].(status := status)];
      log := log + [PutProjectEntity(key, status)];
    }

    method UpdateTrustStatus(key: Key, status: TrustStatus)
      requires key in trusts
      modifies `trusts, `log
      ensures log == old(log) + [PutTrust(key, status)]
      ensures View() == Apply(old(View()), PutTrust(key, status))
    {
      trusts := trusts[key := trusts[key].(status := status)];
      log := log + [PutTrust(key, status)];
    }

    method UpdateEntityStatus(key: Key, status: EntityStatus)
      requires key in entities
      modifies `entities, `log
      ensures log == old(log) + [PutEntity(key, status)]
      ensures View() == Apply(old(View()), PutEntity(key, status))
    {
      entities := entities[key := entities[key].(status := status)];
      log := log + [PutEntity(key, status)];
    }

    method UpdateBindingStatus(key: Key, status: BindingStatus)
      requires key in bindings
      modifies `bindings, `log
      ensures log == old(log) + [PutBinding(key, status)]
      ensures View() == Apply(old(View()), PutBinding(key, status))
    {
      bindings := bindings[key := bindings[key].(status := status)];
      log := log + [PutBinding(key, status)];
    }

    // ---- Finalizers ---------------------------------------------------------------------------

    method HoldTrust(key: Key)
      requires key in trusts
      modifies `trusts, `log
      ensures log == old(log) + [AddTrustFinalizer(key)]
      ensures View() == Apply(old(View()), AddTrustFinalizer(key)) && key in trusts
    {
      trusts := trusts[key := trusts[key].(meta := Held(trusts[key].meta, true))];
      log := log + [AddTrustFinalizer(key)];
    }

    method ReleaseTrust(key: Key)
      requires key in trusts
      modifies `trusts, `log
      ensures log == old(log) + [DropTrustFinalizer(key)]
      ensures View() == Apply(old(View()), DropTrustFinalizer(key))
    {
      var m := Held(trusts[key].meta, false);
      if Gone(m) {
        trusts := trusts - {key};
      } else {
        trusts := trusts[key := trusts[key].(meta := m)];
      }
      log := log + [DropTrustFinalizer(key)];
    }

    method HoldBinding(key: Key)
      requires key in bindings
      modifies `bindings, `log
      ensures log == old(log) + [AddBindingFinalizer(key)]
      ensures View() == Apply(old(View()), AddBindingFinalizer(key)) && key in bindings
    {
      bindings := bindings[key := bindings[key].(meta := Held(bindings[key].meta, true))];
      log := log + [AddBindingFinalizer(key)];
    }

    method ReleaseBinding(key: Key)
      requires key in bindings
      modifies `bindings, `log
      ensures log == old(log) + [DropBindingFinalizer(key)]
      ensures View() == Apply(old(View()), DropBindingFinalizer(key))
    {
      var m := Held(bindings[key].meta, false);
      if Gone(m) {
        bindings := bindings - {key};
      } else {
        bindings := bindings[key := bindings[key].(meta := m)];
      }
      log := log + [DropBindingFinalizer(key)];
    }

    // ---- Backend calls: each opens a client on the backend and leaves the state the call left ----

    method EnsureEntity(n: string, name: string) returns (id: string)
      requires n in backends
      modifies `backends, `log
      ensures log == old(log) + [WriteEntity(n, name)]
      ensures View() == Apply(old(View()), WriteEntity(n, name))
      ensures id == EntityID(old(backends[n]), name)
    {
      var client := new FakeClient.On(backends[n]);
      id := client.EnsureEntity(name);
      backends := backends[n := client.View()];
      log := log + [WriteEntity(n, name)];
    }

    method EnsureJWTAuthMount(n: string, path: string)
      requires n in backends
      modifies `backends, `log
      ensures log == old(log) + [WriteMount(n, path)]
      ensures View() == Apply(old(View()), WriteMount(n, path))
      ensures n in backends && path in backends[n].mounts
    {
      var client := new FakeClient.On(backends[n]);
      client.EnsureJWTAuthMount(path);
      backends := backends[n := client.View()];
      log := log + [WriteMount(n, path)];
    }

    /** Logged only when the mount is there: otherwise the call answers an error and writes nothing. */
    method ConfigureJWTTrust(n: string, path: string, cfg: JWTAuthConfig) returns (found: bool)
      requires n in backends
      modifies `backends, `log
      ensures found <==> path in old(backends[n]).mounts
      ensures log == old(log) + if found then [WriteConfig(n, path, cfg)] else []
      ensures View() == if found then Apply(old(View()), WriteConfig(n, path, cfg)) else old(View())
    {
      var client := new FakeClient.On(backends[n]);
      found := client.ConfigureJWTTrust(path, cfg);
      if found {
        backends := backends[n := client.View()];
        log := log + [WriteConfig(n, path, cfg)];
      }
    }

    /** Logged only when the mount is there, as above. */
    method EnsureJWTRole(n: string, path: string, role: JWTRole) returns (found: bool)
      requires n in backends
      modifies `backends, `log
      ensures found <==> path in old(backends[n]).mounts
      ensures log == old(log) + if found then [WriteRole(n, path, role)] else []
      ensures View() == if found then Apply(old(View()), WriteRole(n, path, role)) else old(View())
    {
      var client := new FakeClient.On(backends[n]);
      found := client.EnsureJWTRole(path, role);
      if found {
        backends := backends[n := client.View()];
        log := log + [WriteRole(n, path, role)];
      }
    }

    method DeleteJWTRole(n: string, path: string, name: string)
      requires n in backends
      modifies `backends, `log
      ensures log == old(log) + [RemoveRole(n, path, name)]
      ensures View() == Apply(old(View()), RemoveRole(n, path, name))
    {
      var client := new FakeClient.On(backends[n]);
      client.DeleteJWTRole(path, name);
      backends := backends[n := client.View()];
      log := log + [RemoveRole(n, path, name)];
    }

    method DeleteAuthMount(n: string, path: string)
      requires n in backends
      modifies `backends, `log
      ensures log == old(log) + [RemoveMount(n, path)]
      ensures View() == Apply(old(View()), RemoveMount(n, path))
    {
      hide WithoutMount;
      var client := new FakeClient.On(backends[n]);
      client.DeleteAuthMount(path);
      backends := backends[n := client.View()];
      log := log + [RemoveMount(n, path)];
    }
  }
}
