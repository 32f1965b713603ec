/** The state of the shared informer factory. */
module InformerFactory {
  import opened Base

  type Kind = string      // reflect.Type of the watched object
  type Informer = nat     // identity of a SharedIndexInformer

  type Channel = nat      // identity of a stop channel

  /** One goroutine that runs an informer until its channel is closed. */
  datatype Launch = Launch(kind: Kind, informer: Informer, stopCh: Channel)

  /** The fields of the factory, with the goroutines it has launched so far and
      the identities newFunc has handed out. */
  datatype Factory = Factory(
    informers: map<Kind, Informer>,
    started: set<Kind>,
    wg: nat,
    shuttingDown: bool,
    launched: seq<Launch>,
    created: nat)

  function Empty(): Factory {
    Factory(map[], {}, 0, false, [], 0)
  }

  /** The factory after InformerFor has been asked for a kind. */
  function Registered(f: Factory, kind: Kind): Factory {
    if kind in f.informers then f
    else f.(informers := f.informers[kind := f.created], created := f.created + 1)
  }

  /** Started kinds are registered, no kind is launched twice, and each launch runs
      the informer registered for its kind. */
  ghost predicate Consistent(f: Factory) {
    && f.started <= f.informers.Keys
    && (forall j, k :: 0 <= j < k < |f.launched| ==> f.launched[j].kind != f.launched[k].kind)
    && (forall k :: 0 <= k < |f.launched| ==>
          f.launched[k].kind in f.informers && f.informers[f.launched[k].kind] == f.launched[k].informer)
  }

  /** Every kind has an informer of its own, and one has been created for each. */
  ghost predicate EachItsOwn(f: Factory) {
    && f.created == |f.informers|
    && (forall kind :: kind in f.informers ==> f.informers[kind] < f.created)
    && forall a, b :: a in f.informers && b in f.informers && a != b ==> f.informers[a] != f.informers[b]
  }

  lemma RegisteredEachItsOwn(f: Factory, kind: Kind)
    requires EachItsOwn(f)
    ensures EachItsOwn(Registered(f, kind))
  {
  }

  /** What one call of Start does when nothing else happens meanwhile. */
  ghost predicate StartEffect(f: Factory, g: Factory, stopCh: Channel) {
    if f.shuttingDown then g == f
    else
      && g.informers == f.informers && g.created == f.created && !g.shuttingDown
      && g.started == f.informers.Keys
      && f.launched <= g.launched
      && g.wg == f.wg + (|g.launched| - |f.launched|)
      && (forall k :: |f.launched| <= k < |g.launched| ==> g.launched[k].stopCh == stopCh)
      && (forall kind :: kind in f.informers && kind !in f.started <==>
            exists k :: |f.launched| <= k < |g.launched| && g.launched[k].kind == kind)
  }
}
