/** The ATT&CK catalogue and its lookup. */
module Mitre {
  import opened Lists
  import opened Intel

  datatype Tactic =
    | CredentialAccess | DefenseEvasion | LateralMovement | CommandAndControl
    | Execution | Discovery | Persistence | Impact

  datatype Info = Info(technique: Technique, tactic: Tactic)

  function Catalogue(t: Technique): Option<Info> {
    match t
    case T1110 => Some(Info(t, CredentialAccess))
    case T1110_001 => Some(Info(t, CredentialAccess))
    case T1078 => Some(Info(t, DefenseEvasion))
    case T1021_004 => Some(Info(t, LateralMovement))
    case T1105 => Some(Info(t, CommandAndControl))
    case T1059 => Some(Info(t, Execution))
    case T1082 => Some(Info(t, Discovery))
    case T1033 => Some(Info(t, Discovery))
    case T1087 => Some(Info(t, Discovery))
    case T1018 => Some(Info(t, Discovery))
    case T1098_004 => Some(Info(t, Persistence))
    case T1053_003 => Some(Info(t, Persistence))
    case T1496 => Some(Info(t, Impact))
    case T1562_001 => Some(Info(t, DefenseEvasion))
    case Unlisted(_) => None
  }

  predicate Known(t: Technique) { !t.Unlisted? }

  function Infos(ids: seq<Technique>): (out: seq<Info>)
  {
    if ids == [] then []
    else Infos(ids[..|ids| - 1]) +
         (if Known(ids[|ids| - 1]) then [Catalogue(ids[|ids| - 1]).value] else [])
  }

  /** The metadata of the known techniques, each once, at its first occurrence. */
  function Resolved(ids: seq<Technique>): seq<Info> { Infos(Dedup(ids)) }

  method Resolve(ids: seq<Technique>) returns (out: seq<Info>)
    ensures out == Resolved(ids)
  {
    out := [];
    var seen: set<Technique> := {};
    for i := 0 to |ids|
      invariant seen == set t | t in ids[..i]
      invariant out == Resolved(ids[..i])
    {
      var tid := ids[i];
      assert ids[..i + 1][..i] == ids[..i];
      DedupElements(ids[..i]);
      ghost var d := Dedup(ids[..i]);
      assert (d + [tid])[..|d|] == d;
      if tid !in seen {
        seen := seen + {tid};
        var tech := Catalogue(tid);
        if tech.Some? {
          out := out + [tech.value];
        }
      }
      assert out == Resolved(ids[..i + 1]);
    }
    assert ids[..|ids|] == ids;
  }

  /** A duplicate-free list of known techniques resolves entry by entry: nothing is dropped. */
  lemma {:induction false} ResolveKeepsAll(ids: seq<Technique>)
    requires NoDup(ids) && forall t :: t in ids ==> Known(t)
    ensures |Resolved(ids)| == |ids|
    ensures forall i :: 0 <= i < |ids| ==> Resolved(ids)[i].technique == ids[i]
  {
    DedupOfNoDup(ids);
    InfosKeepAll(ids);
  }

  lemma {:induction false} InfosKeepAll(ids: seq<Technique>)
    requires forall t :: t in ids ==> Known(t)
    ensures |Infos(ids)| == |ids|
    ensures forall i :: 0 <= i < |ids| ==> Infos(ids)[i].technique == ids[i]
  {
    if ids != [] {
      assert forall t :: t in ids[..|ids| - 1] ==> t in ids;
      InfosKeepAll(ids[..|ids| - 1]);
    }
  }

  ghost predicate Shows(infos: seq<Info>, t: Technique) {
    exists i :: 0 <= i < |infos| && infos[i].technique == t
  }

  /** The entries of the resolved list are the known identifiers and no others. */
  lemma ResolvedMembers(ids: seq<Technique>, t: Technique)
    ensures Shows(Resolved(ids), t) <==> t in ids && Known(t)
  {
    DedupElements(ids);
    InfosMembers(Dedup(ids), t);
  }

  lemma ShowsAppend(infos: seq<Info>, info: Info, t: Technique)
    ensures Shows(infos + [info], t) <==> Shows(infos, t) || info.technique == t
  {
    var more := infos + [info];
    if i :| 0 <= i < |infos| && infos[i].technique == t {
      assert more[i].technique == t;
    }
    assert more[|infos|] == info;
  }

  lemma {:induction false} InfosMembers(ids: seq<Technique>, t: Technique)
    ensures Shows(Infos(ids), t) <==> t in ids && Known(t)
  {
    if ids != [] {
      var n := |ids| - 1;
      InfosMembers(ids[..n], t);
      assert ids == ids[..n] + [ids[n]];
      if Known(ids[n]) {
        ShowsAppend(Infos(ids[..n]), Catalogue(ids[n]).value, t);
      } else {
        assert Infos(ids) == Infos(ids[..n]);
      }
    }
  }

  /** The resolved entries are those of the known identifiers, each at its first occurrence. */
  lemma ResolvedInOrder(ids: seq<Technique>)
    ensures
      var known := Filter((t: Technique) => Known(t), Dedup(ids));
      |Resolved(ids)| == |known| &&
      forall i :: 0 <= i < |known| ==> Catalogue(known[i]) == Some(Resolved(ids)[i])
  {
    InfosInOrder(Dedup(ids));
  }

  lemma {:induction false} InfosInOrder(ids: seq<Technique>)
    ensures
      var known := Filter((t: Technique) => Known(t), ids);
      |Infos(ids)| == |known| && forall i :: 0 <= i < |known| ==> Catalogue(known[i]) == Some(Infos(ids)[i])
  {
    if ids != [] { InfosInOrder(ids[..|ids| - 1]); }
  }

  /** The catalogue by tactic. */
  lemma Tactics(t: Technique)
    requires Known(t)
    ensures Catalogue(t).Some? && Catalogue(t).value.technique == t
    ensures Catalogue(t).value.tactic == (
      if t in {T1082, T1033, T1087, T1018} then Discovery
      else if t in {T1110, T1110_001} then CredentialAccess
      else if t in {T1078, T1562_001} then DefenseEvasion
      else if t in {T1098_004, T1053_003} then Persistence
      else if t == T1021_004 then LateralMovement
      else if t == T1105 then CommandAndControl
      else if t == T1059 then Execution
      else Impact)
  {
  }
}
