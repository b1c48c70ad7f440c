/**
 * What the API server does with each call of the operator: admission, optimistic concurrency,
 * finalizers, and writes that change nothing. Library semantics, stated once as functions.
 */
module ApiServer {
  import opened Api
  import opened Admission

  const EMPTY_META := Meta(0, 0, false, [], None, map[], map[])

  /** A creation: defaulted, validated, given a fresh identity and an empty status. */
  function CreateService(s: Store, name: string, meta: Meta, spec: ServiceSpec): (r: (Store, Outcome))
    ensures !r.1.Ok? ==> r.0 == s
    ensures !r.1.Panic?
  {
    if name in s.services then (s, Fail("already exists"))
    else if !ServiceValid(DefaultService(spec)) then (s, Fail("admission webhook denied the request"))
    else
      var created := Service(meta.(uid := s.uids, version := 0, deleting := false), DefaultService(spec), ServiceStatus("", []));
      (s.(uids := s.uids + 1, services := s.services[name := created]), Ok)
  }

  /** Stores v if that changes anything; an object whose last finalizer went while deleting is gone. */
  function Stored(s: Store, name: string, v: Service): Store
    requires name in s.services
  {
    if v.meta.deleting && v.meta.finalizers == [] then s.(services := s.services - {name})
    else if v == s.services[name] then s
    else s.(services := s.services[name := v.(meta := v.meta.(version := v.meta.version + 1))])
  }

  /** Update of the main resource: the status is not written, a stale version is a conflict. */
  function UpdateService(s: Store, name: string, v: Service): (r: (Store, Outcome))
    ensures !r.1.Ok? ==> r.0 == s
    ensures !r.1.Panic?
  {
    if name !in s.services then (s, Fail("not found"))
    else
      var cur := s.services[name];
      if cur.meta.uid != v.meta.uid || cur.meta.version != v.meta.version then (s, Fail("conflict"))
      else if !ServiceUpdateValid(cur.spec, DefaultService(v.spec)) then (s, Fail("admission webhook denied the request"))
      else (Stored(s, name, Service(v.meta, DefaultService(v.spec), cur.status)), Ok)
  }

  /** Update of the status subresource; a write can be lost, and a stale one always is. */
  function UpdateServiceStatus(s: Store, name: string, v: Service, lands: bool): (r: (Store, Outcome))
    ensures !r.1.Ok? ==> r.0 == s
    ensures !r.1.Panic?
  {
    if lands && name in s.services && s.services[name].meta.uid == v.meta.uid && s.services[name].meta.version == v.meta.version then
      var cur := s.services[name];
      (s.(services := s.services[name := cur.(status := v.status, meta := cur.meta.(version := cur.meta.version + 1))]), Ok)
    else (s, Fail("status update lost"))
  }

  /** The object a successful call returns into the caller's copy. */
  function Refreshed(s: Store, name: string, v: Service): Service {
    if name in s.services then s.services[name] else v
  }

  function Marked(v: Service): Service {
    if v.meta.deleting then v else v.(meta := v.meta.(deleting := true, version := v.meta.version + 1))
  }

  /** Deletion of a set of objects: finalizers turn a deletion into a mark. */
  function DeleteServices(s: Store, names: set<string>): Store {
    s.(services := map n | n in s.services && !(n in names && s.services[n].meta.finalizers == [])
                         :: if n in names then Marked(s.services[n]) else s.services[n])
  }

  lemma DeleteOneThenRest(s: Store, done: set<string>, n: string)
    ensures DeleteServices(DeleteServices(s, done), {n}) == DeleteServices(s, done + {n})
  {
    var a, b := DeleteServices(DeleteServices(s, done), {n}).services, DeleteServices(s, done + {n}).services;
    assert a.Keys == b.Keys;
    assert a == b;
  }

  lemma DeleteNothing(s: Store)
    ensures DeleteServices(s, {}) == s
  {
    assert DeleteServices(s, {}).services == s.services;
  }

  /** The platform's deferred write: the latest object is fetched, then its whole status replaced. */
  function PublishPlatform(s: Store, name: string, status: PlatformStatus, lands: bool): Store {
    if lands && name in s.platforms then
      var cur := s.platforms[name];
      s.(platforms := s.platforms[name := cur.(status := status, meta := cur.meta.(version := cur.meta.version + 1))])
    else s
  }

  function StoredPlatform(s: Store, name: string, p: Platform): Store
    requires name in s.platforms
  {
    if p.meta.deleting && p.meta.finalizers == [] then s.(platforms := s.platforms - {name})
    else if p == s.platforms[name] then s
    else s.(platforms := s.platforms[name := p.(meta := p.meta.(version := p.meta.version + 1))])
  }

  function UpdatePlatform(s: Store, name: string, p: Platform, quantities: iset<string>): (r: (Store, Outcome))
    ensures !r.1.Ok? ==> r.0 == s
    ensures !r.1.Panic?
  {
    if name !in s.platforms then (s, Fail("not found"))
    else
      var cur := s.platforms[name];
      if cur.meta.uid != p.meta.uid || cur.meta.version != p.meta.version then (s, Fail("conflict"))
      else if !PlatformUpdateValid(cur.spec, DefaultPlatform(p.spec), quantities) then (s, Fail("admission webhook denied the request"))
      else (StoredPlatform(s, name, Platform(p.meta, DefaultPlatform(p.spec), cur.status)), Ok)
  }

  function CreatePlatform(s: Store, name: string, meta: Meta, spec: PlatformSpec, quantities: iset<string>): Store {
    if name == "" || name in s.platforms || !PlatformValid(DefaultPlatform(spec), quantities) then s
    else s.(uids := s.uids + 1,
            platforms := s.platforms[name := Platform(meta.(uid := s.uids, version := 0, deleting := false),
                                                       DefaultPlatform(spec), PlatformStatus("", "", "", []))])
  }

  function DeletePlatform(s: Store, name: string): Store {
    if name !in s.platforms then s
    else if s.platforms[name].meta.finalizers == [] then s.(platforms := s.platforms - {name})
    else
      var p := s.platforms[name];
      if p.meta.deleting then s
      else s.(platforms := s.platforms[name := p.(meta := p.meta.(deleting := true, version := p.meta.version + 1))])
  }
}
