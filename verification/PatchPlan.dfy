/** Preflight: from parsed sections to the content every touched path should have. */
module PatchPlan {
  import opened Wrappers
  import opened Content
  import opened PatchJournal
  import PatchGrammar
  import Hunks
  import TextFile
  import TextLines

  const MAX_PATCH_FILE_BYTES := 8_388_608

  type Section = PatchGrammar.Section
  type BaseHashes = map<Path, Option<Digest>>

  datatype PatchError =
    | InvalidPatch | InvalidPath | InvalidRequest | PatchConflict | PathNotFound | FileTooLarge
    | UnsupportedEncoding | IdempotencyConflict | OutcomeUnknown | RecoveryFailed | Interrupted

  /** What a patch wants each touched path to hold, and the changes it reports. */
  datatype Plan = Plan(desired: map<Path, Option<Bytes>>, changes: seq<Change>)

  function Touched(s: Section): set<Path> {
    if s.Move? then {s.path, s.destination} else {s.path}
  }

  function Required(sections: seq<Section>): set<Path> {
    if sections == [] then {} else Touched(sections[0]) + Required(sections[1..])
  }

  /** A file's bytes after its hunks. */
  function Edited(raw: Bytes, hunks: seq<Hunks.Hunk>, platform: string): Result<Bytes, PatchError> {
    var document := TextFile.Decode(raw, platform);
    if document.None? then Failure(UnsupportedEncoding)
    else
      var lines := Hunks.Patch(document.value.lines, hunks, 1);
      if lines.Failure? then Failure(PatchConflict)
      else Success(TextFile.Encode(document.value.(lines := lines.value)))
  }

  /** What one section does to the paths it touches, and the change it reports. */
  function SectionEdit(files: Files, s: Section, base: BaseHashes, platform: string)
    : Result<(map<Path, Option<Bytes>>, Change), PatchError>
    requires Touched(s) <= base.Keys
  {
    if s.Add? then
      if base[s.path].Some? then Failure(InvalidRequest)
      else if s.path in files then Failure(PatchConflict)
      else
        var raw := TextFile.Encode(TextFile.Document(s.lines, platform, true, false));
        Success((map[s.path := Some(raw)], Change(Action.Add, s.path, None, None, Some(Sha256(raw)))))
    else if s.path !in files then Failure(PathNotFound)
    else if |files[s.path]| > MAX_PATCH_FILE_BYTES then Failure(FileTooLarge)
    else
      var original := Sha256(files[s.path]);
      if base[s.path] != Some(original) then Failure(PatchConflict)
      else if s.Delete? then
        Success((map[s.path := None], Change(Action.Delete, s.path, None, Some(original), None)))
      else
        var edited := Edited(files[s.path], s.hunks, platform);
        if edited.Failure? then Failure(edited.error)
        else
          var raw := edited.value;
          if s.Update? then
            Success((map[s.path := Some(raw)], Change(Action.Update, s.path, None, Some(original), Some(Sha256(raw)))))
          else if base[s.destination].Some? then Failure(InvalidRequest)
          else if s.destination in files then Failure(PatchConflict)
          else Success((map[s.path := None, s.destination := Some(raw)],
                        Change(Action.Move, s.path, Some(s.destination), Some(original), Some(Sha256(raw)))))
  }

  ghost predicate Disjoint(sections: seq<Section>) {
    forall i, j :: 0 <= i < j < |sections| ==> Touched(sections[i]) * Touched(sections[j]) == {}
  }

  /** Exactly the requests that pass preflight: every touched path is declared,
    no path is in two sections, and each section fits the files as they are. */
  ghost predicate Acceptable(files: Files, sections: seq<Section>, base: BaseHashes, platform: string) {
    && Required(sections) == base.Keys
    && Disjoint(sections)
    && forall i :: 0 <= i < |sections| ==>
         Touched(sections[i]) <= base.Keys && SectionEdit(files, sections[i], base, platform).Success?
  }

  /** The plan is section by section what `SectionEdit` says, and nothing else. */
  ghost predicate Follows(plan: Plan, files: Files, sections: seq<Section>, base: BaseHashes, platform: string) {
    && plan.desired.Keys == Required(sections)
    && |plan.changes| == |sections|
    && forall i :: 0 <= i < |sections| ==>
         && Touched(sections[i]) <= base.Keys
         && SectionEdit(files, sections[i], base, platform).Success?
         && Carries(plan, SectionEdit(files, sections[i], base, platform).value, i)
  }

  ghost predicate Carries(plan: Plan, edit: (map<Path, Option<Bytes>>, Change), i: nat) {
    && i < |plan.changes| && plan.changes[i] == edit.1
    && forall p :: p in edit.0 ==> p in plan.desired && plan.desired[p] == edit.0[p]
  }

  lemma {:induction false} RequiredContains(sections: seq<Section>, i: nat)
    requires i < |sections|
    ensures Touched(sections[i]) <= Required(sections)
  {
    if i > 0 { RequiredContains(sections[1..], i - 1); }
  }

  lemma {:induction false} RequiredFrom(sections: seq<Section>, p: Path) returns (i: nat)
    requires p in Required(sections)
    ensures i < |sections| && p in Touched(sections[i])
  {
    if p in Touched(sections[0]) {
      i := 0;
    } else {
      var j := RequiredFrom(sections[1..], p);
      i := j + 1;
    }
  }

  lemma {:induction false} RequiredSnoc(sections: seq<Section>, s: Section)
    ensures Required(sections + [s]) == Required(sections) + Touched(s)
  {
    if sections == [] {
      assert (sections + [s])[1..] == [];
    } else {
      RequiredSnoc(sections[1..], s);
      assert (sections + [s])[1..] == sections[1..] + [s];
    }
  }

  function Extended(plan: Plan, edit: (map<Path, Option<Bytes>>, Change)): Plan {
    Plan(plan.desired + edit.0, plan.changes + [edit.1])
  }

  lemma FollowsExtended(plan: Plan, files: Files, done: seq<Section>, s: Section, base: BaseHashes, platform: string)
    requires Follows(plan, files, done, base, platform)
    requires Touched(s) <= base.Keys && Touched(s) * Required(done) == {}
    requires SectionEdit(files, s, base, platform).Success?
    ensures Follows(Extended(plan, SectionEdit(files, s, base, platform).value), files, done + [s], base, platform)
  {
    hide SectionEdit, Touched;
    var edit := SectionEdit(files, s, base, platform).value;
    var next := Extended(plan, edit);
    EditTouches(files, s, base, platform);
    RequiredSnoc(done, s);
    var all := done + [s];
    forall i | 0 <= i < |all|
      ensures && Touched(all[i]) <= base.Keys
              && SectionEdit(files, all[i], base, platform).Success?
              && Carries(next, SectionEdit(files, all[i], base, platform).value, i)
    {
      if i < |done| {
        assert all[i] == done[i];
        assert Carries(plan, SectionEdit(files, done[i], base, platform).value, i);
        RequiredContains(done, i);
        EditTouches(files, done[i], base, platform);
        forall p | p in Touched(done[i]) ensures p !in Touched(s) {
          assert p in Required(done) && p !in Touched(s) * Required(done);
        }
      } else {
        assert all[i] == s;
      }
    }
  }

  lemma DisjointExtended(done: seq<Section>, s: Section)
    requires Disjoint(done) && Touched(s) * Required(done) == {}
    ensures Disjoint(done + [s])
  {
    hide Touched;
    forall i | 0 <= i < |done| ensures Touched(done[i]) * Touched(s) == {} {
      RequiredContains(done, i);
      assert Touched(done[i]) * Touched(s) <= Touched(s) * Required(done);
    }
  }

  ghost predicate RefusedAt(files: Files, sections: seq<Section>, base: BaseHashes, platform: string,
                            k: nat, e: PatchError) {
    && k < |sections| && Touched(sections[k]) <= base.Keys
    && Disjoint(sections[..k])
    && (forall i :: 0 <= i < k ==>
          Touched(sections[i]) <= base.Keys && SectionEdit(files, sections[i], base, platform).Success?)
    && if Touched(sections[k]) * Required(sections[..k]) != {} then e == InvalidPatch
       else SectionEdit(files, sections[k], base, platform) == Failure(e)
  }

  /** Why a request does not pass: its paths are not the declared ones, or the
    first section that does not pass says why. */
  ghost predicate Refuses(files: Files, sections: seq<Section>, base: BaseHashes, platform: string, e: PatchError) {
    if Required(sections) != base.Keys then e == InvalidRequest
    else exists k :: RefusedAt(files, sections, base, platform, k, e)
  }

  /** The preflight loop, with its set of paths already spoken for. */
  method Preflight(files: Files, sections: seq<Section>, base: BaseHashes, platform: string)
    returns (r: Result<Plan, PatchError>)
    ensures r.Success? <==> Acceptable(files, sections, base, platform)
    ensures r.Success? ==> Follows(r.value, files, sections, base, platform)
    ensures r.Failure? ==> Refuses(files, sections, base, platform, r.error)
  {
    hide SectionEdit, Touched, Carries;
    if Required(sections) != base.Keys {
      return Failure(InvalidRequest);
    }
    var touched: set<Path> := {};
    var plan := Plan(map[], []);
    for k := 0 to |sections|
      invariant touched == Required(sections[..k])
      invariant Disjoint(sections[..k])
      invariant Follows(plan, files, sections[..k], base, platform)
    {
      var s := sections[k];
      RequiredContains(sections, k);
      if Touched(s) * touched != {} {
        var p :| p in Touched(s) * touched;
        ghost var i := RequiredFrom(sections[..k], p);
        assert p in Touched(sections[i]) * Touched(sections[k]);
        assert RefusedAt(files, sections, base, platform, k, InvalidPatch);
        return Failure(InvalidPatch);
      }
      var edit := SectionEdit(files, s, base, platform);
      if edit.Failure? {
        assert RefusedAt(files, sections, base, platform, k, edit.error);
        return Failure(edit.error);
      }
      FollowsExtended(plan, files, sections[..k], s, base, platform);
      DisjointExtended(sections[..k], s);
      RequiredSnoc(sections[..k], s);
      assert sections[..k + 1] == sections[..k] + [s];
      plan := Extended(plan, edit.value);
      touched := touched + Touched(s);
    }
    assert sections[..|sections|] == sections;
    return Success(plan);
  }

  lemma EditTouches(files: Files, s: Section, base: BaseHashes, platform: string)
    requires Touched(s) <= base.Keys && SectionEdit(files, s, base, platform).Success?
    ensures SectionEdit(files, s, base, platform).value.0.Keys == Touched(s)
    ensures forall p :: p in Touched(s) ==> HashAt(files, p) == base[p]
  {
    hide Edited, TextFile.Encode;
  }

  /** What a section does depends on the files at its own paths only. */
  lemma EditIsLocal(a: Files, b: Files, s: Section, base: BaseHashes, platform: string)
    requires Touched(s) <= base.Keys && forall p :: p in Touched(s) ==> Get(a, p) == Get(b, p)
    ensures SectionEdit(a, s, base, platform) == SectionEdit(b, s, base, platform)
  {
    hide Edited, TextFile.Encode;
    assert s.path in Touched(s);
    assert s.path in a <==> s.path in b;
    if s.Move? {
      assert s.destination in Touched(s);
      assert s.destination in a <==> s.destination in b;
    }
  }

  /** So whether a patch fits, and its plan, depend on the files at its declared paths only. */
  lemma PlanIsLocal(a: Files, b: Files, sections: seq<Section>, base: BaseHashes, platform: string, plan: Plan)
    requires Acceptable(a, sections, base, platform) && Follows(plan, a, sections, base, platform)
    requires forall p :: p in base.Keys ==> Get(a, p) == Get(b, p)
    ensures Acceptable(b, sections, base, platform) && Follows(plan, b, sections, base, platform)
  {
    hide SectionEdit, Touched, Carries, Required, Disjoint;
    forall i | 0 <= i < |sections|
      ensures SectionEdit(b, sections[i], base, platform) == SectionEdit(a, sections[i], base, platform)
    {
      EditIsLocal(a, b, sections[i], base, platform);
    }
  }

  /** A plan touches exactly the declared paths, and every declared hash is the
    hash of the file it was made for. */
  lemma PlanFitsFiles(plan: Plan, files: Files, sections: seq<Section>, base: BaseHashes, platform: string)
    requires Required(sections) == base.Keys && Follows(plan, files, sections, base, platform)
    ensures plan.desired.Keys == base.Keys
    ensures forall p :: p in base ==> HashAt(files, p) == base[p]
  {
    hide SectionEdit, HashAt;
    forall p | p in base ensures HashAt(files, p) == base[p] {
      var i := RequiredFrom(sections, p);
      EditTouches(files, sections[i], base, platform);
    }
  }

  /** The hashes a version 1 manifest implies are the hashes of the planned contents. */
  lemma {:induction false} LegacyHashesAgree(plan: Plan, files: Files, sections: seq<Section>, base: BaseHashes,
                                             platform: string)
    requires Follows(plan, files, sections, base, platform)
    ensures DesiredHashes(plan.changes).Keys == plan.desired.Keys
    ensures forall p :: p in plan.desired ==> DesiredHashes(plan.changes)[p] == Hash(plan.desired[p])
  {
    LegacyHashesOfPrefix(plan, files, sections, base, platform, |sections|);
    assert plan.changes[..|sections|] == plan.changes && sections[..|sections|] == sections;
  }

  lemma {:induction false} LegacyHashesOfPrefix(plan: Plan, files: Files, sections: seq<Section>, base: BaseHashes,
                                                platform: string, k: nat)
    requires Follows(plan, files, sections, base, platform) && k <= |sections| == |plan.changes|
    ensures DesiredHashes(plan.changes[..k]).Keys == Required(sections[..k])
    ensures Required(sections[..k]) <= plan.desired.Keys
    ensures forall p :: p in Required(sections[..k]) ==> DesiredHashes(plan.changes[..k])[p] == Hash(plan.desired[p])
  {
    hide SectionEdit, Follows, Hash;
    if k > 0 {
      LegacyHashesOfPrefix(plan, files, sections, base, platform, k - 1);
      var s := sections[k - 1];
      assert plan.changes[..k][..k - 1] == plan.changes[..k - 1];
      assert plan.changes[..k][k - 1] == plan.changes[k - 1];
      assert sections[..k] == sections[..k - 1] + [s];
      RequiredSnoc(sections[..k - 1], s);
      FollowsAt(plan, files, sections, base, platform, k - 1);
      SectionChange(plan, files, s, base, platform, k - 1);
    }
  }

  lemma FollowsAt(plan: Plan, files: Files, sections: seq<Section>, base: BaseHashes, platform: string, i: nat)
    requires Follows(plan, files, sections, base, platform) && i < |sections|
    ensures |plan.changes| == |sections|
    ensures Touched(sections[i]) <= base.Keys && SectionEdit(files, sections[i], base, platform).Success?
    ensures Carries(plan, SectionEdit(files, sections[i], base, platform).value, i)
  {
  }

  lemma SectionChange(plan: Plan, files: Files, s: Section, base: BaseHashes, platform: string, i: nat)
    requires Touched(s) <= base.Keys && SectionEdit(files, s, base, platform).Success?
    requires Carries(plan, SectionEdit(files, s, base, platform).value, i)
    ensures var c := plan.changes[i];
      && c.source == s.path && c.action.Move? == s.Move? && Touched(s) <= plan.desired.Keys
      && (s.Move? ==> c.destination == Some(s.destination) && s.destination != s.path
                      && c.newHash == Hash(plan.desired[s.destination]))
      && Hash(plan.desired[s.path]) == (if c.action.Delete? || c.action.Move? then None else c.newHash)
  {
    hide Edited, TextFile.Encode;
    if s.Move? {
      assert base[s.path].Some? && base[s.destination].None?;
    }
  }
}
