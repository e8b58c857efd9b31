/** What a plan writes, told by the files and the patch's own lines: which
  requests pass preflight, which error the others get, and what the new files show. */
module PatchContents {
  import opened Wrappers
  import opened Content
  import opened PatchJournal
  import opened PatchPlan
  import Hunks
  import HunkMeaning
  import PatchGrammar
  import PatchReprint
  import TextFile
  import TextLines

  predicate Mentions(s: Section, p: Path) {
    p == s.path || (s.Move? && p == s.destination)
  }

  predicate MentionedIn(sections: seq<Section>, p: Path) {
    exists i :: 0 <= i < |sections| && Mentions(sections[i], p)
  }

  /** The declared paths are the mentioned ones. */
  ghost predicate Declared(sections: seq<Section>, base: BaseHashes) {
    forall p :: p in base <==> MentionedIn(sections, p)
  }

  predicate Shared(a: Section, b: Section, p: Path) {
    Mentions(a, p) && Mentions(b, p)
  }

  ghost predicate NoneTwice(sections: seq<Section>) {
    forall i, j, p :: 0 <= i < j < |sections| ==> !Shared(sections[i], sections[j], p)
  }

  /** The file is there, small enough, and what its declared hash says. */
  predicate Current(files: Files, base: BaseHashes, p: Path) {
    p in files && |files[p]| <= 8_388_608 && p in base && base[p] == Some(Sha256(files[p]))
  }

  predicate Free(files: Files, base: BaseHashes, p: Path) {
    p !in files && p in base && base[p] == None
  }

  /** The text of a file with the hunks' old lines replaced by their new ones. */
  ghost predicate Rewritten(raw: Bytes, hunks: seq<Hunks.Hunk>, platform: string, d: TextFile.Document, lines: seq<string>) {
    TextFile.Decode(raw, platform) == Some(d) && HunkMeaning.Patches(d.lines, hunks, lines)
  }

  ghost predicate EditedTo(raw: Bytes, hunks: seq<Hunks.Hunk>, platform: string, content: Option<Bytes>) {
    exists d, lines :: Rewritten(raw, hunks, platform, d, lines) && content == Some(TextFile.Encode(d.(lines := lines)))
  }

  function AddedText(lines: seq<string>, platform: string): TextFile.Document {
    TextFile.Document(lines, platform, true, false)
  }

  /** What a section finds, what it wants its paths to hold, and what it reports. */
  ghost predicate Planned(files: Files, s: Section, base: BaseHashes, platform: string,
                          desired: map<Path, Option<Bytes>>, c: Change) {
    s.path in desired && (s.Move? ==> s.destination in desired) &&
    match s
    case Add(path, lines) =>
      && Free(files, base, path)
      && desired[path] == Some(TextFile.Encode(AddedText(lines, platform)))
      && c == Change(Action.Add, path, None, None, Hash(desired[path]))
    case Delete(path) =>
      && Current(files, base, path)
      && desired[path] == None
      && c == Change(Action.Delete, path, None, base[path], None)
    case Update(path, hunks) =>
      && Current(files, base, path)
      && EditedTo(files[path], hunks, platform, desired[path])
      && c == Change(Action.Update, path, None, base[path], Hash(desired[path]))
    case Move(path, destination, hunks) =>
      && Current(files, base, path) && Free(files, base, destination)
      && desired[path] == None
      && EditedTo(files[path], hunks, platform, desired[destination])
      && c == Change(Action.Move, path, Some(destination), base[path], Hash(desired[destination]))
  }

  ghost predicate PlannedFor(plan: Plan, files: Files, sections: seq<Section>, base: BaseHashes, platform: string) {
    && plan.desired.Keys == base.Keys && |plan.changes| == |sections|
    && forall i :: 0 <= i < |sections| ==> Planned(files, sections[i], base, platform, plan.desired, plan.changes[i])
  }

  // One section

  lemma EditedMeans(raw: Bytes, hunks: seq<Hunks.Hunk>, platform: string, content: Option<Bytes>)
    ensures EditedTo(raw, hunks, platform, content) <==>
      content.Some? && Edited(raw, hunks, platform) == Success(content.value)
  {
    hide TextFile.Decode, TextFile.Encode, Hunks.Patch, HunkMeaning.Patches;
    var document := TextFile.Decode(raw, platform);
    if document.Some? {
      var d := document.value;
      var patched := Hunks.Patch(d.lines, hunks, 1);
      if patched.Success? {
        HunkMeaning.PatchMeansReplacing(d.lines, hunks, patched.value);
        assert Rewritten(raw, hunks, platform, d, patched.value);
      }
      forall lines | HunkMeaning.Patches(d.lines, hunks, lines) ensures patched == Success(lines) {
        HunkMeaning.PatchMeansReplacing(d.lines, hunks, lines);
      }
    }
  }

  /** A section passes exactly when it can be planned, and then is planned as it says. */
  lemma SectionMeans(files: Files, s: Section, base: BaseHashes, platform: string, plan: Plan, i: nat)
    requires Touched(s) <= base.Keys && Touched(s) <= plan.desired.Keys && i < |plan.changes|
    ensures SectionEdit(files, s, base, platform).Success?
        && Carries(plan, SectionEdit(files, s, base, platform).value, i)
      <==> Planned(files, s, base, platform, plan.desired, plan.changes[i])
  {
    hide Edited, TextFile.Encode, EditedTo;
    if (s.Update? || s.Move?) && s.path in files {
      var p := if s.Move? then s.destination else s.path;
      EditedMeans(files[s.path], s.hunks, platform, plan.desired[p]);
    }
  }

  // A whole request

  lemma MentionsTouched(s: Section, p: Path)
    ensures Mentions(s, p) <==> p in Touched(s)
  {
  }

  lemma DeclaredMeans(sections: seq<Section>, base: BaseHashes)
    ensures Required(sections) == base.Keys <==> Declared(sections, base)
  {
    hide Touched, Mentions;
    forall p ensures p in Required(sections) <==> MentionedIn(sections, p) {
      if p in Required(sections) {
        var i := RequiredFrom(sections, p);
        MentionsTouched(sections[i], p);
      }
      if MentionedIn(sections, p) {
        var i :| 0 <= i < |sections| && Mentions(sections[i], p);
        MentionsTouched(sections[i], p);
        RequiredContains(sections, i);
      }
    }
  }

  lemma SharedMeans(a: Section, b: Section)
    ensures Touched(a) * Touched(b) == {} <==> forall p :: !Shared(a, b, p)
  {
    hide Touched, Mentions;
    forall p ensures Shared(a, b, p) <==> p in Touched(a) * Touched(b) {
      MentionsTouched(a, p);
      MentionsTouched(b, p);
    }
  }

  lemma DisjointMeans(sections: seq<Section>)
    ensures Disjoint(sections) <==> NoneTwice(sections)
  {
    hide Touched, Shared;
    forall i, j | 0 <= i < j < |sections|
      ensures Touched(sections[i]) * Touched(sections[j]) == {} <==> forall p :: !Shared(sections[i], sections[j], p)
    {
      SharedMeans(sections[i], sections[j]);
    }
  }

  /** A plan that follows the request is what the sections say, path by path. */
  lemma PlanMeans(plan: Plan, files: Files, sections: seq<Section>, base: BaseHashes, platform: string)
    requires Declared(sections, base)
    ensures Follows(plan, files, sections, base, platform) <==> PlannedFor(plan, files, sections, base, platform)
  {
    hide SectionEdit, Touched, Carries, Planned, Required;
    DeclaredMeans(sections, base);
    if plan.desired.Keys == Required(sections) && |plan.changes| == |sections| {
      forall i | 0 <= i < |sections|
        ensures Touched(sections[i]) <= base.Keys && Touched(sections[i]) <= plan.desired.Keys
        ensures SectionEdit(files, sections[i], base, platform).Success?
            && Carries(plan, SectionEdit(files, sections[i], base, platform).value, i)
          <==> Planned(files, sections[i], base, platform, plan.desired, plan.changes[i])
      {
        RequiredContains(sections, i);
        SectionMeans(files, sections[i], base, platform, plan, i);
      }
    }
  }

  lemma {:induction false} RequiredApart(sections: seq<Section>, paths: set<Path>)
    requires forall i :: 0 <= i < |sections| ==> Touched(sections[i]) * paths == {}
    ensures paths * Required(sections) == {}
  {
    hide Touched;
    if sections != [] {
      RequiredApart(sections[1..], paths);
      assert paths * Required(sections) == Touched(sections[0]) * paths + paths * Required(sections[1..]);
    }
  }

  lemma {:induction false} PlanExists(files: Files, sections: seq<Section>, base: BaseHashes, platform: string)
    returns (plan: Plan)
    requires Disjoint(sections)
    requires forall i :: 0 <= i < |sections| ==>
      Touched(sections[i]) <= base.Keys && SectionEdit(files, sections[i], base, platform).Success?
    ensures Follows(plan, files, sections, base, platform)
    decreases |sections|
  {
    hide SectionEdit, Touched, Carries;
    if sections == [] {
      plan := Plan(map[], []);
    } else {
      var n := |sections| - 1;
      var before := PlanExists(files, sections[..n], base, platform);
      plan := Extended(before, SectionEdit(files, sections[n], base, platform).value);
      RequiredApart(sections[..n], Touched(sections[n]));
      FollowsExtended(before, files, sections[..n], sections[n], base, platform);
      assert sections == sections[..n] + [sections[n]];
    }
  }

  /** The requests that pass: the mentioned paths are the declared ones, none is
    mentioned in two sections, and every section can be planned. */
  lemma RequestMeans(files: Files, sections: seq<Section>, base: BaseHashes, platform: string)
    ensures Acceptable(files, sections, base, platform) <==>
      Declared(sections, base) && NoneTwice(sections) && exists plan :: PlannedFor(plan, files, sections, base, platform)
  {
    hide SectionEdit, Touched, Carries, PlannedFor, Disjoint, NoneTwice, Declared, Required;
    DeclaredMeans(sections, base);
    DisjointMeans(sections);
    if Acceptable(files, sections, base, platform) {
      var plan := PlanExists(files, sections, base, platform);
      PlanMeans(plan, files, sections, base, platform);
    }
    if Declared(sections, base) && NoneTwice(sections) && exists plan :: PlannedFor(plan, files, sections, base, platform) {
      var plan :| PlannedFor(plan, files, sections, base, platform);
      PlanMeans(plan, files, sections, base, platform);
      assert Follows(plan, files, sections, base, platform);
    }
  }

  // Which error

  /** The section's hunks have their places in the file. */
  ghost predicate Applies(files: Files, s: Section, base: BaseHashes, platform: string) {
    (s.Update? || s.Move?) && Current(files, base, s.path) && exists content :: EditedTo(files[s.path], s.hunks, platform, content)
  }

  predicate Readable(files: Files, s: Section, base: BaseHashes, platform: string) {
    (s.Update? || s.Move?) && Current(files, base, s.path) && TextFile.Decode(files[s.path], platform).Some?
  }

  /** Why a single section does not pass. */
  ghost predicate Fails(files: Files, s: Section, base: BaseHashes, platform: string, e: PatchError)
    requires s.path in base && (s.Move? ==> s.destination in base)
  {
    match e
    case InvalidRequest =>
      (s.Add? && base[s.path].Some?) || (s.Move? && Applies(files, s, base, platform) && base[s.destination].Some?)
    case PathNotFound => !s.Add? && s.path !in files
    case FileTooLarge => !s.Add? && s.path in files && |files[s.path]| > 8_388_608
    case UnsupportedEncoding =>
      (s.Update? || s.Move?) && Current(files, base, s.path) && !Readable(files, s, base, platform)
    case PatchConflict =>
      || (s.Add? && base[s.path].None? && s.path in files)
      || (!s.Add? && s.path in files && |files[s.path]| <= 8_388_608 && base[s.path] != Some(Sha256(files[s.path])))
      || (Readable(files, s, base, platform) && !Applies(files, s, base, platform))
      || (s.Move? && Applies(files, s, base, platform) && base[s.destination].None? && s.destination in files)
    case _ => false
  }

  lemma AppliesMeans(files: Files, s: Section, base: BaseHashes, platform: string)
    requires (s.Update? || s.Move?) && s.path in files
    ensures Applies(files, s, base, platform) <==>
      Current(files, base, s.path) && Edited(files[s.path], s.hunks, platform).Success?
    ensures var edited := Edited(files[s.path], s.hunks, platform);
      if TextFile.Decode(files[s.path], platform).None? then edited == Failure(UnsupportedEncoding)
      else edited.Success? || edited == Failure(PatchConflict)
  {
    hide EditedTo, TextFile.Decode, TextFile.Encode, Hunks.Patch;
    var edited := Edited(files[s.path], s.hunks, platform);
    if edited.Success? {
      EditedMeans(files[s.path], s.hunks, platform, Some(edited.value));
    }
    if content :| EditedTo(files[s.path], s.hunks, platform, content) {
      EditedMeans(files[s.path], s.hunks, platform, content);
    }
  }

  lemma FailureMeans(files: Files, s: Section, base: BaseHashes, platform: string, e: PatchError)
    requires Touched(s) <= base.Keys
    ensures SectionEdit(files, s, base, platform) == Failure(e) <==> Fails(files, s, base, platform, e)
  {
    hide Edited, Applies, TextFile.Decode, TextFile.Encode;
    if (s.Update? || s.Move?) && s.path in files {
      AppliesMeans(files, s, base, platform);
    }
    if (s.Update? || s.Move?) && s.path !in files {
      NotApplied(files, s, base, platform);
    }
  }

  lemma NotApplied(files: Files, s: Section, base: BaseHashes, platform: string)
    requires s.path !in files
    ensures !Applies(files, s, base, platform)
  {
  }

  ghost predicate Plannable(files: Files, s: Section, base: BaseHashes, platform: string) {
    exists desired, c :: Planned(files, s, base, platform, desired, c)
  }

  lemma PlannableMeans(files: Files, s: Section, base: BaseHashes, platform: string)
    requires Touched(s) <= base.Keys
    ensures Plannable(files, s, base, platform) <==> SectionEdit(files, s, base, platform).Success?
  {
    hide SectionEdit, Planned, Touched;
    if SectionEdit(files, s, base, platform).Success? {
      var edit := SectionEdit(files, s, base, platform).value;
      EditTouches(files, s, base, platform);
      SectionMeans(files, s, base, platform, Plan(edit.0, [edit.1]), 0);
    }
    if desired, c :| Planned(files, s, base, platform, desired, c) {
      PlannedTouches(files, s, base, platform, desired, c);
      SectionMeans(files, s, base, platform, Plan(desired, [c]), 0);
    }
  }

  lemma PlannedTouches(files: Files, s: Section, base: BaseHashes, platform: string,
                       desired: map<Path, Option<Bytes>>, c: Change)
    requires Planned(files, s, base, platform, desired, c)
    ensures Touched(s) <= desired.Keys
  {
    hide EditedTo;
  }

  /** The first section that does not pass decides the error: it mentions a path of
    an earlier one, or fails by itself. */
  ghost predicate FirstFailing(files: Files, sections: seq<Section>, base: BaseHashes, platform: string,
                               k: nat, e: PatchError) {
    && k < |sections| && sections[k].path in base && (sections[k].Move? ==> sections[k].destination in base)
    && NoneTwice(sections[..k])
    && (forall i :: 0 <= i < k ==> Plannable(files, sections[i], base, platform))
    && if exists p :: Mentions(sections[k], p) && MentionedIn(sections[..k], p) then e == InvalidPatch
       else Fails(files, sections[k], base, platform, e)
  }

  /** Why preflight refuses: the mentioned paths are not the declared ones, or the
    first failing section says why. */
  lemma RefusalMeans(files: Files, sections: seq<Section>, base: BaseHashes, platform: string, e: PatchError)
    ensures Refuses(files, sections, base, platform, e) <==>
      if !Declared(sections, base) then e == InvalidRequest
      else exists k :: FirstFailing(files, sections, base, platform, k, e)
  {
    hide RefusedAt, FirstFailing, Declared, Required;
    DeclaredMeans(sections, base);
    if Declared(sections, base) {
      forall k: nat
        ensures RefusedAt(files, sections, base, platform, k, e) <==> FirstFailing(files, sections, base, platform, k, e)
      {
        RefusedMeans(files, sections, base, platform, k, e);
      }
    }
  }

  lemma RefusedMeans(files: Files, sections: seq<Section>, base: BaseHashes, platform: string, k: nat, e: PatchError)
    requires Declared(sections, base)
    ensures RefusedAt(files, sections, base, platform, k, e) <==> FirstFailing(files, sections, base, platform, k, e)
  {
    hide SectionEdit, Touched, Plannable, Fails, NoneTwice, Disjoint, Declared, Required, Mentions, MentionedIn;
    if k < |sections| {
      forall i | 0 <= i < |sections| ensures Touched(sections[i]) <= base.Keys {
        DeclaredMeans(sections, base);
        RequiredContains(sections, i);
      }
      TouchedIn(sections[k], base);
      DisjointMeans(sections[..k]);
      forall i | 0 <= i < k
        ensures SectionEdit(files, sections[i], base, platform).Success? <==> Plannable(files, sections[i], base, platform)
      {
        PlannableMeans(files, sections[i], base, platform);
      }
      OverlapMeans(sections[..k], sections[k]);
      FailureMeans(files, sections[k], base, platform, e);
    }
  }

  lemma TouchedIn(s: Section, base: BaseHashes)
    ensures Touched(s) <= base.Keys <==> s.path in base && (s.Move? ==> s.destination in base)
  {
  }

  lemma OverlapMeans(sections: seq<Section>, s: Section)
    ensures Touched(s) * Required(sections) != {} <==> exists p :: Mentions(s, p) && MentionedIn(sections, p)
  {
    hide Touched, Mentions, MentionedIn, Required;
    forall p ensures p in Touched(s) * Required(sections) <==> Mentions(s, p) && MentionedIn(sections, p) {
      MentionsTouched(s, p);
      MentionedMeans(sections, p);
    }
    if Touched(s) * Required(sections) != {} {
      var p :| p in Touched(s) * Required(sections);
      assert Mentions(s, p) && MentionedIn(sections, p);
    }
  }

  lemma MentionedMeans(sections: seq<Section>, p: Path)
    ensures p in Required(sections) <==> MentionedIn(sections, p)
  {
    hide Touched, Mentions;
    if p in Required(sections) {
      var i := RequiredFrom(sections, p);
      MentionsTouched(sections[i], p);
    }
    if MentionedIn(sections, p) {
      var i :| 0 <= i < |sections| && Mentions(sections[i], p);
      MentionsTouched(sections[i], p);
      RequiredContains(sections, i);
    }
  }

  // What the new files show

  ghost predicate LinesBreakless(h: Hunks.Hunk) {
    forall i :: 0 <= i < |h| ==> TextLines.Breakless(h[i].text)
  }

  lemma {:induction false} WithoutBreakless(h: Hunks.Hunk, tag: Hunks.Tag)
    requires LinesBreakless(h)
    ensures TextLines.AllBreakless(Hunks.Without(h, tag))
  {
    hide TextLines.Breakless;
    if h != [] { WithoutBreakless(h[1..], tag); }
  }

  lemma {:induction false} PatchedBreakless(lines: seq<string>, hunks: seq<Hunks.Hunk>, number: nat)
    requires TextLines.AllBreakless(lines) && Hunks.Patch(lines, hunks, number).Success?
    requires forall k :: 0 <= k < |hunks| ==> LinesBreakless(hunks[k])
    ensures TextLines.AllBreakless(Hunks.Patch(lines, hunks, number).value)
    decreases |hunks|
  {
    hide TextLines.Breakless, Hunks.Candidates, Hunks.Without;
    if hunks != [] {
      var expected := Hunks.Expected(hunks[0]);
      var at := Hunks.Candidates(lines, expected, 0)[0];
      assert at in Hunks.Candidates(lines, expected, 0);
      WithoutBreakless(hunks[0], Hunks.Remove);
      PatchedBreakless(lines[at + |expected|..], hunks[1..], number + 1);
    }
  }

  /** The new file shows the old lines with the hunks' blocks replaced, under the
    same mark, newline and final newline. A mark can appear only if the new text
    starts with U+FEFF, and only an empty last line without a final newline is lost. */
  lemma EditedShows(raw: Bytes, hunks: seq<Hunks.Hunk>, platform: string, d: TextFile.Document, lines: seq<string>)
    requires TextLines.IsNewline(platform) && Rewritten(raw, hunks, platform, d, lines)
    requires forall k :: 0 <= k < |hunks| ==> LinesBreakless(hunks[k])
    ensures var after := d.(lines := lines);
      && EditedTo(raw, hunks, platform, Some(TextFile.Encode(after)))
      && TextFile.Decode(TextFile.Encode(after), platform) == Some(TextFile.Shown(TextFile.Marked(after), platform))
  {
    hide TextFile.Encode, TextFile.Shown, TextFile.Marked, TextLines.Breakless, Hunks.Patch, HunkMeaning.Patches, LinesBreakless;
    TextFile.DecodedBreakless(raw, platform);
    HunkMeaning.PatchMeansReplacing(d.lines, hunks, lines);
    PatchedBreakless(d.lines, hunks, 1);
    TextFile.EncodeMeans(d.(lines := lines), platform);
    assert Rewritten(raw, hunks, platform, d, lines);
  }

  ghost predicate Shows(content: Option<Bytes>, after: TextFile.Document, platform: string) {
    content.Some? && TextFile.Decode(content.value, platform) == Some(TextFile.Shown(TextFile.Marked(after), platform))
  }

  ghost predicate ShowsEdited(raw: Bytes, hunks: seq<Hunks.Hunk>, platform: string, content: Option<Bytes>) {
    exists d, lines :: Rewritten(raw, hunks, platform, d, lines) && Shows(content, d.(lines := lines), platform)
  }

  /** What the paths of a section show once its plan is carried out. */
  ghost predicate SectionShows(files: Files, s: Section, platform: string, desired: map<Path, Option<Bytes>>) {
    s.path in desired && (s.Move? ==> s.destination in desired) && (!s.Add? ==> s.path in files) &&
    match s
    case Add(path, lines) => Shows(desired[path], AddedText(lines, platform), platform)
    case Delete(path) => desired[path] == None
    case Update(path, hunks) => ShowsEdited(files[path], hunks, platform, desired[path])
    case Move(path, destination, hunks) =>
      desired[path] == None && ShowsEdited(files[path], hunks, platform, desired[destination])
  }

  lemma CleanShows(files: Files, s: Section, base: BaseHashes, platform: string,
                   desired: map<Path, Option<Bytes>>, c: Change)
    requires TextLines.IsNewline(platform) && PatchGrammar.Clean(s)
    requires Planned(files, s, base, platform, desired, c)
    ensures SectionShows(files, s, platform, desired)
  {
    hide TextFile.Encode, TextFile.Decode, TextFile.Shown, TextFile.Marked, TextLines.Breakless, HunkMeaning.Patches,
         PatchGrammar.CleanPath, PatchGrammar.UsableHunk;
    if s.Add? {
      TextFile.EncodeMeans(AddedText(s.lines, platform), platform);
    }
    if s.Update? || s.Move? {
      var content := desired[if s.Move? then s.destination else s.path];
      var d, lines :| Rewritten(files[s.path], s.hunks, platform, d, lines)
        && content == Some(TextFile.Encode(d.(lines := lines)));
      forall k | 0 <= k < |s.hunks| ensures LinesBreakless(s.hunks[k]) {
        assert PatchGrammar.CleanHunk(s.hunks[k]);
      }
      EditedShows(files[s.path], s.hunks, platform, d, lines);
      assert Shows(content, d.(lines := lines), platform);
    }
  }

  /** Carrying out the plan of a parsed document leaves, at every path it mentions,
    a file that shows what its section says, or none. */
  lemma PlanShows(document: string, plan: Plan, files: Files, sections: seq<Section>, base: BaseHashes, platform: string)
    requires TextLines.IsNewline(platform) && PatchGrammar.ParseDocument(document) == Success(sections)
    requires Declared(sections, base) && Follows(plan, files, sections, base, platform)
    ensures forall i :: 0 <= i < |sections| ==> SectionShows(files, sections[i], platform, plan.desired)
  {
    hide SectionShows, Planned, PatchGrammar.Clean, PatchGrammar.ParseDocument, PatchGrammar.Print, Declared, Follows;
    PatchReprint.ParseReprint(document);
    PatchReprint.SurvivesExactly(sections);
    PlanMeans(plan, files, sections, base, platform);
    forall i | 0 <= i < |sections| ensures SectionShows(files, sections[i], platform, plan.desired) {
      CleanShows(files, sections[i], base, platform, plan.desired, plan.changes[i]);
    }
  }
}
