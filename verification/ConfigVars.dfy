/** A configuration variable and its listeners, used by one thread at a time. */
module ConfigVars {
  import opened Wrappers
  import opened Names

  /** One listener's view of a variable: from `start` to `now`, each change picks up where the one
      before left off and really changes the value. */
  predicate Chain<V(==)>(start: V, seen: seq<(V, V)>, now: V) {
    if seen == [] then start == now
    else
      var (was, new_) := seen[|seen| - 1];
      new_ == now && was != new_ && Chain(start, seen[..|seen| - 1], was)
  }

  lemma {:induction false} ChainIsUnbroken<V>(start: V, seen: seq<(V, V)>, now: V)
    requires Chain(start, seen, now)
    ensures seen != [] ==> seen[0].0 == start && seen[|seen| - 1].1 == now
    ensures seen == [] ==> start == now
    ensures forall k :: 0 <= k < |seen| ==> seen[k].0 != seen[k].1
    ensures forall k :: 0 < k < |seen| ==> seen[k - 1].1 == seen[k].0
  {
    if seen != [] {
      var last := |seen| - 1;
      ChainIsUnbroken(start, seen[..last], seen[last].0);
      assert forall k :: 0 <= k < last ==> seen[..last][k] == seen[k];
    }
  }

  /** The static id counter of addListener, shared by all variables of one type. */
  class IdCounter<V(==)> {
    var s_fun_id: nat
    /** The variable each id was handed out for. */
    ghost var issued: map<nat, ConfigVar<V>>

    constructor ()
      ensures s_fun_id == 0 && issued == map[]
    {
      s_fun_id := 0;
      issued := map[];
    }

    ghost predicate Valid()
      reads this
    {
      forall id :: id in issued ==> 0 < id <= s_fun_id
    }
  }

  class ConfigVar<V(==)> {
    const m_name: string
    const m_type: string
    /** Conversion from text; None stands for an exception. */
    const fromStr: string -> Option<V>
    const ids: IdCounter<V>
    var m_val: V
    /** For each registered listener, the (old, new) pairs it has been called with. */
    var m_cbs: map<nat, seq<(V, V)>>
    /** The value each listener was registered at. */
    ghost var starts: map<nat, V>

    ghost predicate Valid()
      reads this, ids
    {
      && ids.Valid()
      && m_cbs.Keys == starts.Keys
      && (forall id :: id in m_cbs ==> id in ids.issued && ids.issued[id] == this)
      && (forall id :: id in m_cbs ==> Chain(starts[id], m_cbs[id], m_val))
    }

    constructor (name: string, typ: string, value: V, fromStr: string -> Option<V>, ids: IdCounter<V>)
      requires ids.Valid()
      ensures Valid() && m_name == Lower(name) && m_type == typ && m_val == value && m_cbs == map[]
      ensures this.fromStr == fromStr && this.ids == ids
    {
      m_name := Lower(name);
      m_type := typ;
      this.fromStr := fromStr;
      this.ids := ids;
      m_val := value;
      m_cbs := map[];
      starts := map[];
    }

    /** The value read is where the chain of every listener ends. */
    method GetValue() returns (v: V)
      requires Valid()
      ensures v == m_val && forall id :: id in m_cbs ==> Chain(starts[id], m_cbs[id], v)
    {
      v := m_val;
    }

    /** Listeners hear of a change before the value changes; an equal value is not announced. */
    method SetValue(v: V)
      requires Valid()
      modifies this`m_val, this`m_cbs
      ensures Valid() && m_val == v && m_cbs.Keys == old(m_cbs.Keys)
      ensures forall id :: id in m_cbs ==>
                m_cbs[id] == old(m_cbs)[id] + if v == old(m_val) then [] else [(old(m_val), v)]
    {
      if v == m_val {
        return;
      }
      var todo := m_cbs.Keys;
      while todo != {}
        invariant todo <= m_cbs.Keys == old(m_cbs.Keys) && m_val == old(m_val)
        invariant forall id :: id in m_cbs ==>
                    m_cbs[id] == if id in todo then old(m_cbs)[id] else old(m_cbs)[id] + [(m_val, v)]
        decreases todo
      {
        var id :| id in todo;
        m_cbs := m_cbs[id := m_cbs[id] + [(m_val, v)]];
        todo := todo - {id};
      }
      m_val := v;
      forall id | id in m_cbs ensures Chain(starts[id], m_cbs[id], m_val) {
        assert m_cbs[id][..|m_cbs[id]| - 1] == old(m_cbs)[id];
      }
    }

    /** Text that does not convert changes nothing and tells nobody; other text is set, and every
        listener told once if that is a change. The result is false in every case. */
    method FromString(text: string) returns (ok: bool)
      requires Valid()
      modifies this`m_val, this`m_cbs
      ensures Valid() && !ok && m_cbs.Keys == old(m_cbs.Keys)
      ensures fromStr(text).None? ==> m_val == old(m_val) && m_cbs == old(m_cbs)
      ensures fromStr(text).Some? ==> m_val == fromStr(text).value
      ensures forall id :: id in m_cbs ==>
                m_cbs[id] == old(m_cbs)[id] + if m_val == old(m_val) then [] else [(old(m_val), m_val)]
    {
      match fromStr(text) {
        case None =>
        case Some(v) => SetValue(v);
      }
      ok := false;
    }

    /** Ids grow over all variables of the type, so no two listeners ever share one. */
    method AddListener() returns (id: nat)
      requires Valid()
      modifies this`m_cbs, this`starts, ids
      ensures Valid()
      ensures id == old(ids.s_fun_id) + 1 == ids.s_fun_id && ids.issued == old(ids.issued)[id := this]
      ensures m_cbs == old(m_cbs)[id := []] && starts == old(starts)[id := m_val]
      ensures id !in old(ids.issued) && id !in old(m_cbs)
    {
      ids.s_fun_id := ids.s_fun_id + 1;
      id := ids.s_fun_id;
      m_cbs := m_cbs[id := []];
      ids.issued := ids.issued[id := this];
      starts := starts[id := m_val];
    }

    /** Removes the listener with that id; an id handed out for another variable removes nothing. */
    method DelListener(key: nat)
      requires Valid()
      modifies this`m_cbs, this`starts
      ensures Valid() && m_cbs == old(m_cbs) - {key} && starts == old(starts) - {key}
      ensures key in ids.issued && ids.issued[key] != this ==> m_cbs == old(m_cbs)
    {
      m_cbs := m_cbs - {key};
      starts := starts - {key};
    }

    /** Only listeners of this variable are found, with an unbroken chain up to the present value. */
    method GetListener(key: nat) returns (seen: Option<seq<(V, V)>>)
      requires Valid()
      ensures seen.Some? <==> key in m_cbs
      ensures seen.Some? ==> seen.value == m_cbs[key] && Chain(starts[key], seen.value, m_val)
      ensures seen.Some? ==> key in ids.issued && ids.issued[key] == this
    {
      seen := if key in m_cbs then Some(m_cbs[key]) else None;
    }

    method ClearListener()
      requires Valid()
      modifies this`m_cbs, this`starts
      ensures Valid() && m_cbs == map[]
    {
      m_cbs := map[];
      starts := map[];
    }
  }

  /** Two variables of one type never hold the same listener id. */
  lemma IdsAreDisjoint<V>(a: ConfigVar<V>, b: ConfigVar<V>)
    requires a != b && a.ids == b.ids && a.Valid() && b.Valid()
    ensures a.m_cbs.Keys !! b.m_cbs.Keys
  {
  }
}
