/** The maker-profile intake page: the editing operations on its tag lists
    (skills, certifications, languages) and on its list of projects, the
    parsing of the comma-separated software and hardware fields, and the
    rewriting of project image URLs when the intake is saved.

    The pure updates are functions; the page state is the class
    `IntakeForm`, whose methods replace its lists as the page's state setters
    do. File reading and storage uploads are parameters. */
module IntakeEditing {
  import opened Optional
  import opened Text

  // ---------------------------------------------------------------------------
  // Tag lists

  /** A tag list and the text of its input box. */
  datatype TagEdit = TagEdit(tags: seq<string>, input: string)

  /** `addSkill` / `addCert` / `addLang`: the trimmed input is added to the
      list (`Array.from(new Set([...prev, s]))`) and the input is cleared; an
      input that trims to nothing changes neither. */
  function AddTag(tags: seq<string>, input: string): (r: TagEdit)
    ensures Trim(input) == "" ==> r == TagEdit(tags, input)
    ensures Trim(input) != "" ==> r.input == "" && NoDups(r.tags)
    ensures Trim(input) != "" ==> forall x :: x in r.tags <==> x in tags || x == Trim(input)
  {
    var s := Trim(input);
    if s == "" then TagEdit(tags, input) else TagEdit(Dedup(tags + [s]), "")
  }

  /** On a duplicate-free list, adding appends the trimmed value at the end
      when it is new and otherwise leaves the list as it was. */
  lemma AddTagAppends(tags: seq<string>, input: string)
    requires NoDups(tags) && Trim(input) != ""
    ensures AddTag(tags, input).tags == if Trim(input) in tags then tags else tags + [Trim(input)]
  {
    DedupAppend(tags, Trim(input));
  }

  /** `removeSkill` / `removeCert` / `removeLang`: exactly the elements equal
      to the value are dropped, the rest kept in order; removing what was
      just added to a list that lacked it gives the list back. */
  lemma RemoveTagUndoesAdd(tags: seq<string>, input: string)
    requires NoDups(tags) && Trim(input) != "" && Trim(input) !in tags
    ensures RemoveAll(AddTag(tags, input).tags, Trim(input)) == tags
  {
    var s := Trim(input);
    DedupAppend(tags, s);
    RemoveAllAppend(tags, [s], s);
    RemoveAllAbsent(tags, s);
    assert RemoveAll([s], s) == [];
  }

  // ---------------------------------------------------------------------------
  // Projects

  datatype Project = Project(
    id: string,
    name: string,
    description: string,
    skills: seq<string>,
    softwares: seq<string>,
    hardwares: seq<string>,
    images: seq<string>)

  /** A `Partial<Project>`: the fields it gives replace those of the project. */
  datatype ProjectPatch = ProjectPatch(
    id: Option<string>,
    name: Option<string>,
    description: Option<string>,
    skills: Option<seq<string>>,
    softwares: Option<seq<string>>,
    hardwares: Option<seq<string>>,
    images: Option<seq<string>>)

  const NoChange := ProjectPatch(None, None, None, None, None, None, None)

  /** `{ ...p, ...patch }`. */
  function Merge(p: Project, patch: ProjectPatch): Project {
    Project(
      patch.id.GetOr(p.id),
      patch.name.GetOr(p.name),
      patch.description.GetOr(p.description),
      patch.skills.GetOr(p.skills),
      patch.softwares.GetOr(p.softwares),
      patch.hardwares.GetOr(p.hardwares),
      patch.images.GetOr(p.images))
  }

  /** Merging the same patch twice is merging it once. */
  lemma MergeIdempotent(p: Project, patch: ProjectPatch)
    ensures Merge(Merge(p, patch), patch) == Merge(p, patch)
    ensures Merge(p, NoChange) == p
  {
  }

  /** The new, empty project of `addProject`; its id is given. */
  function EmptyProject(id: string): Project {
    Project(id, "", "", [], [], [], [])
  }

  /** `addProject`: one empty project appended. */
  function WithNewProject(ps: seq<Project>, id: string): seq<Project> {
    ps + [EmptyProject(id)]
  }

  /** `removeProject`: the projects with that id dropped, the others kept in
      order. */
  function WithoutProject(ps: seq<Project>, id: string): (r: seq<Project>)
    ensures |r| <= |ps|
    ensures forall q :: q in r ==> q in ps && q.id != id
    ensures forall q :: q in ps && q.id != id ==> q in r
  {
    if ps == [] then []
    else if ps[0].id == id then WithoutProject(ps[1..], id)
    else [ps[0]] + WithoutProject(ps[1..], id)
  }

  /** Removal works piece by piece, so the kept projects stay in order. */
  lemma {:induction false} WithoutProjectAppend(a: seq<Project>, b: seq<Project>, id: string)
    ensures WithoutProject(a + b, id) == WithoutProject(a, id) + WithoutProject(b, id)
  {
    if a == [] {
      assert a + b == b;
    } else {
      assert (a + b)[0] == a[0] && (a + b)[1..] == a[1..] + b;
      WithoutProjectAppend(a[1..], b, id);
    }
  }

  /** Removing an id no project has changes nothing. */
  lemma {:induction false} WithoutProjectAbsent(ps: seq<Project>, id: string)
    requires forall q :: q in ps ==> q.id != id
    ensures WithoutProject(ps, id) == ps
  {
    if ps != [] {
      assert ps[0] in ps;
      TailMembers(ps);
      WithoutProjectAbsent(ps[1..], id);
      HeadAndTail(ps);
    }
  }

  lemma TailMembers(ps: seq<Project>)
    requires ps != []
    ensures forall q :: q in ps[1..] ==> q in ps
  {
  }

  lemma HeadAndTail(ps: seq<Project>)
    requires ps != []
    ensures [ps[0]] + ps[1..] == ps
  {
  }

  /** Adding a project under a fresh id and removing it gives the list back. */
  lemma RemoveUndoesAddProject(ps: seq<Project>, id: string)
    requires forall q :: q in ps ==> q.id != id
    ensures WithoutProject(WithNewProject(ps, id), id) == ps
  {
    WithoutProjectAppend(ps, [EmptyProject(id)], id);
    WithoutProjectAbsent(ps, id);
  }

  /** `updateProject`: the patch merged into every project with that id. */
  function Patched(ps: seq<Project>, id: string, patch: ProjectPatch): (r: seq<Project>)
    ensures |r| == |ps|
  {
    seq(|ps|, i requires 0 <= i < |ps| => if ps[i].id == id then Merge(ps[i], patch) else ps[i])
  }

  /** An update touches the projects with the id and no other; updating an
      id no project has changes nothing. */
  lemma UpdateOnlyMatching(ps: seq<Project>, id: string, patch: ProjectPatch)
    ensures forall i :: 0 <= i < |ps| && ps[i].id != id ==> Patched(ps, id, patch)[i] == ps[i]
    ensures forall i :: 0 <= i < |ps| && ps[i].id == id ==> Patched(ps, id, patch)[i] == Merge(ps[i], patch)
    ensures (forall q :: q in ps ==> q.id != id) ==> Patched(ps, id, patch) == ps
  {
  }

  /** Applying an update that keeps ids a second time changes nothing more. */
  lemma UpdateIdempotent(ps: seq<Project>, id: string, patch: ProjectPatch)
    requires patch.id.None? || patch.id == Some(id)
    ensures Patched(Patched(ps, id, patch), id, patch) == Patched(ps, id, patch)
  {
  }

  /** `projects.find(p => p.id === id)`, as the index of the first project
      with the id. */
  function FirstWithId(ps: seq<Project>, id: string): (r: Option<nat>)
    ensures r.Some? ==> r.value < |ps| && ps[r.value].id == id
    ensures r.Some? ==> forall j :: 0 <= j < r.value ==> ps[j].id != id
    ensures r.None? <==> forall j :: 0 <= j < |ps| ==> ps[j].id != id
  {
    if ps == [] then None
    else if ps[0].id == id then Some(0)
    else match FirstWithId(ps[1..], id)
      case None => None
      case Some(k) => Some(k + 1)
  }

  const MaxImages := 3

  /** `Math.max(0, 3 - current.images.length)`. */
  function Allowed(current: seq<string>): nat {
    if |current| < MaxImages then MaxImages - |current| else 0
  }

  /** `files.slice(0, allowed)`: the first files chosen, as many as the
      cap allows and no more than were chosen. */
  function FilesTaken(current: seq<string>, dataUrls: seq<string>): (r: seq<string>)
    ensures |r| == if Allowed(current) < |dataUrls| then Allowed(current) else |dataUrls|
    ensures r == dataUrls[..|r|]
  {
    if Allowed(current) < |dataUrls| then dataUrls[..Allowed(current)] else dataUrls
  }

  /** `handleProjectImage`: `dataUrls` are what the chosen files read as.
      With no file, or no project with the id, nothing changes; otherwise the
      images of the first project with the id, followed by the non-empty
      reads of the files taken, become the images of every project with the
      id; the other projects are unchanged. */
  function WithImages(ps: seq<Project>, id: string, dataUrls: seq<string>): (r: seq<Project>)
    ensures |r| == |ps|
    ensures |dataUrls| == 0 || FirstWithId(ps, id).None? ==> r == ps
    ensures forall i :: 0 <= i < |ps| && ps[i].id != id ==> r[i] == ps[i]
    ensures |dataUrls| > 0 && FirstWithId(ps, id).Some? ==>
      var current := ps[FirstWithId(ps, id).value].images;
      forall i :: 0 <= i < |ps| && ps[i].id == id ==>
        r[i] == ps[i].(images := current + NonEmpty(FilesTaken(current, dataUrls)))
  {
    if |dataUrls| == 0 then ps
    else match FirstWithId(ps, id)
      case None => ps
      case Some(k) =>
        var current := ps[k].images;
        Patched(ps, id, NoChange.(images := Some(current + NonEmpty(FilesTaken(current, dataUrls)))))
  }

  /** The image cap: a project with at most 3 images never gets more than 3,
      a project with 3 or more gets none, and the images it had stay in
      front of the new ones. */
  lemma ImageCap(ps: seq<Project>, id: string, dataUrls: seq<string>)
    requires |dataUrls| > 0 && FirstWithId(ps, id).Some?
    ensures var k := FirstWithId(ps, id).value;
      var r := WithImages(ps, id, dataUrls);
      forall i :: 0 <= i < |ps| && ps[i].id == id ==>
        r[i].images[..|ps[k].images|] == ps[k].images
        && |ps[k].images| <= |r[i].images|
        && (|ps[k].images| <= MaxImages ==> |r[i].images| <= MaxImages)
        && (|ps[k].images| >= MaxImages ==> r[i].images == ps[k].images)
  {
    var k := FirstWithId(ps, id).value;
    var current := ps[k].images;
    var added := NonEmpty(FilesTaken(current, dataUrls));
    NonEmptyNoLonger(FilesTaken(current, dataUrls));
    assert (current + added)[..|current|] == current;
    if |current| >= MaxImages {
      assert FilesTaken(current, dataUrls) == [];
      assert added == [];
      assert current + added == current;
    }
  }

  /** Dropping empty strings never lengthens a list. */
  lemma NonEmptyNoLonger(xs: seq<string>)
    ensures |NonEmpty(xs)| <= |xs|
  {
    RemoveAllNoLonger(xs, "");
  }

  /** A full project gets no new image. */
  lemma FullProjectUnchanged(ps: seq<Project>, id: string, dataUrls: seq<string>)
    requires |dataUrls| > 0 && FirstWithId(ps, id).Some?
    requires |ps[FirstWithId(ps, id).value].images| >= MaxImages
    requires forall i :: 0 <= i < |ps| ==> ps[i].id == id ==> ps[i] == ps[FirstWithId(ps, id).value]
    ensures WithImages(ps, id, dataUrls) == ps
  {
    var k := FirstWithId(ps, id).value;
    assert FilesTaken(ps[k].images, dataUrls) == [];
    assert NonEmpty([]) == [];
    assert ps[k].images + [] == ps[k].images;
  }

  /** `removeProjectImage`: the URL removed from the images of the first
      project with the id, and the result given to every project with the id;
      the other projects are unchanged. */
  function WithoutImage(ps: seq<Project>, id: string, url: string): (r: seq<Project>)
    ensures |r| == |ps|
    ensures FirstWithId(ps, id).None? ==> r == ps
    ensures forall i :: 0 <= i < |ps| && ps[i].id != id ==> r[i] == ps[i]
    ensures forall i :: 0 <= i < |ps| && ps[i].id == id ==>
      url !in r[i].images
      && r[i] == ps[i].(images := RemoveAll(ps[FirstWithId(ps, id).value].images, url))
  {
    match FirstWithId(ps, id)
    case None => ps
    case Some(k) => Patched(ps, id, NoChange.(images := Some(RemoveAll(ps[k].images, url))))
  }

  /** `addProjectSkill`: the trimmed value appended to the skills of the
      first project with the id, empty strings dropped, duplicates removed;
      the result becomes the skills of every project with the id, and the
      other projects are unchanged. */
  function WithProjectSkill(ps: seq<Project>, id: string, value: string): (r: seq<Project>)
    ensures |r| == |ps|
    ensures FirstWithId(ps, id).None? ==> r == ps
    ensures forall i :: 0 <= i < |ps| && ps[i].id != id ==> r[i] == ps[i]
    ensures forall i :: 0 <= i < |ps| && ps[i].id == id ==>
      r[i] == ps[i].(skills := r[i].skills)
      && NoDups(r[i].skills) && "" !in r[i].skills
      && (Trim(value) != "" ==> Trim(value) in r[i].skills)
      && (forall x :: x in ps[FirstWithId(ps, id).value].skills && x != "" ==> x in r[i].skills)
      && forall x :: x in r[i].skills ==> x == Trim(value) || x in ps[FirstWithId(ps, id).value].skills
  {
    match FirstWithId(ps, id)
    case None => ps
    case Some(k) =>
      var all := ps[k].skills + [Trim(value)];
      assert Trim(value) != "" ==> Trim(value) in NonEmpty(all) by {
        if Trim(value) != "" {
          assert multiset(all)[Trim(value)] > 0;
        }
      }
      assert forall x :: x in ps[k].skills && x != "" ==> x in NonEmpty(all) by {
        forall x | x in ps[k].skills && x != "" ensures x in NonEmpty(all) {
          assert multiset(all)[x] > 0;
        }
      }
      assert forall x :: x in NonEmpty(all) ==> x in all by {
        forall x | x in NonEmpty(all) ensures x in all {
          assert multiset(NonEmpty(all))[x] > 0;
        }
      }
      Patched(ps, id, NoChange.(skills := Some(Dedup(NonEmpty(all)))))
  }

  // ---------------------------------------------------------------------------
  // Comma-separated lists

  /** Each element trimmed. */
  function TrimAll(xs: seq<string>): (r: seq<string>)
    ensures |r| == |xs|
    ensures forall k :: 0 <= k < |xs| ==> r[k] == Trim(xs[k])
  {
    seq(|xs|, k requires 0 <= k < |xs| => Trim(xs[k]))
  }

  /** `value.split(',').map(s => s.trim()).filter(Boolean)`. */
  function ParseCommaList(value: string): (r: seq<string>)
    ensures forall x :: x in r ==> x != "" && Trim(x) == x && ',' !in x
  {
    TrimmedPieces(Split(value, ','));
    NonEmpty(TrimAll(Split(value, ',')))
  }

  /** Trimmed separator-free pieces are trimmed and separator-free. */
  lemma TrimmedPieces(pieces: seq<string>)
    requires forall k :: 0 <= k < |pieces| ==> ',' !in pieces[k]
    ensures forall x :: x in TrimAll(pieces) ==> Trim(x) == x && ',' !in x
  {
    var trimmed := TrimAll(pieces);
    forall x | x in trimmed ensures Trim(x) == x && ',' !in x {
      var k :| 0 <= k < |trimmed| && trimmed[k] == x;
      TrimIdempotent(pieces[k]);
      TrimSub(pieces[k]);
    }
  }

  /** Every character of the trimmed string is a character of the string. */
  lemma TrimSub(s: string)
    ensures forall c :: c in Trim(s) ==> c in s
  {
    var u := TrimStart(s);
    assert forall c :: c in TrimEnd(u) ==> c in u;
    assert forall c :: c in u ==> c in s;
  }

  /** The elements after the first, each with a space in front. */
  function Spaced(xs: seq<string>): (r: seq<string>)
    ensures |r| == |xs|
    ensures forall k :: 0 <= k < |xs| ==> r[k] == " " + xs[k]
  {
    if xs == [] then [] else [" " + xs[0]] + Spaced(xs[1..])
  }

  /** Putting a prefix on the first element puts it on the whole join. */
  lemma JoinFirstPrefix(sep: string, c: string, x: string, rest: seq<string>)
    ensures Join(sep, [c + x] + rest) == c + Join(sep, [x] + rest)
  {
    if rest != [] {
      assert ([c + x] + rest)[1..] == rest && ([x] + rest)[1..] == rest;
    }
  }

  /** `xs.join(', ')` is the join on ',' of the elements with a space put
      in front of every element but the first. */
  lemma {:induction false} JoinCommaSpace(xs: seq<string>)
    requires |xs| >= 1
    ensures Join(", ", xs) == Join([','], [xs[0]] + Spaced(xs[1..]))
  {
    if |xs| > 1 {
      var tail := xs[1..];
      JoinCommaSpace(tail);
      assert Spaced(tail) == [" " + tail[0]] + Spaced(tail[1..]);
      JoinFirstPrefix([','], " ", tail[0], Spaced(tail[1..]));
      assert ([xs[0]] + Spaced(tail))[1..] == Spaced(tail);
    }
  }

  /** Trimming the spaced pieces gives the entries back. */
  lemma TrimAllSpaced(xs: seq<string>)
    requires |xs| >= 1
    requires forall x :: x in xs ==> x != "" && Trim(x) == x
    ensures TrimAll([xs[0]] + Spaced(xs[1..])) == xs
  {
    var t := TrimAll([xs[0]] + Spaced(xs[1..]));
    forall k | 0 <= k < |xs| ensures t[k] == xs[k] {
      TrimSpacedAt(xs, k);
    }
  }

  lemma TrimSpacedAt(xs: seq<string>, k: nat)
    requires k < |xs|
    requires forall x :: x in xs ==> x != "" && Trim(x) == x
    ensures TrimAll([xs[0]] + Spaced(xs[1..]))[k] == xs[k]
  {
    var ys := [xs[0]] + Spaced(xs[1..]);
    assert xs[k] in xs;
    if k > 0 {
      assert ys[k] == " " + xs[k];
      TrimSpaced(xs[k]);
    }
  }

  /** The spaced pieces of comma-free entries are comma-free. */
  lemma SpacedCommaFree(xs: seq<string>)
    requires |xs| >= 1
    requires forall x :: x in xs ==> ',' !in x
    ensures forall k :: 0 <= k < |xs| ==> ',' !in ([xs[0]] + Spaced(xs[1..]))[k]
  {
    var ys := [xs[0]] + Spaced(xs[1..]);
    forall k | 0 <= k < |ys| ensures ',' !in ys[k] {
      assert xs[k] in xs;
      if k > 0 {
        assert ys[k] == " " + xs[k];
      }
    }
  }

  /** The software and hardware fields show `list.join(', ')`; parsing that
      text gives back the list, for any list of non-empty, trimmed,
      comma-free entries (which is what parsing produces). */
  lemma CommaListRoundTrip(xs: seq<string>)
    requires forall x :: x in xs ==> x != "" && Trim(x) == x && ',' !in x
    ensures ParseCommaList(Join(", ", xs)) == xs
  {
    if xs == [] {
      assert Split("", ',') == [""];
      assert TrimAll([""]) == [Trim("")];
      assert RemoveAll([""], "") == [];
    } else {
      var ys := [xs[0]] + Spaced(xs[1..]);
      JoinCommaSpace(xs);
      SpacedCommaFree(xs);
      SplitJoin(ys, ',');
      TrimAllSpaced(xs);
      RemoveAllAbsent(xs, "");
    }
  }

  // ---------------------------------------------------------------------------
  // Saving

  /** The storage path of image `i` of project `id`. */
  function ImagePath(owner: string, id: string, i: nat): string {
    "intakes/" + owner + "/" + id + "-" + NatToString(i) + ".jpg"
  }

  /** Image `i` of project `id` after saving: a `data:` URL is uploaded and
      replaced by the public URL when the upload gives one, and kept
      otherwise; any other entry is kept. `upload(path, dataUrl)` is the
      storage upload (`None` when it fails). */
  function SavedImage(owner: string, id: string, i: nat, url: string,
                      upload: (string, string) -> Option<string>): (r: string)
    ensures r == url || (StartsWith(url, "data:") && upload(ImagePath(owner, id, i), url) == Some(r) && r != "")
    ensures !StartsWith(url, "data:") ==> r == url
    ensures StartsWith(url, "data:") && Truthy(upload(ImagePath(owner, id, i), url)) ==>
      r == upload(ImagePath(owner, id, i), url).value
    ensures StartsWith(url, "data:") && !Truthy(upload(ImagePath(owner, id, i), url)) ==> r == url
  {
    if url != "" && StartsWith(url, "data:") then
      OrElse(upload(ImagePath(owner, id, i), url), url)
    else url
  }

  /** A project after saving: only its images change. */
  function SavedProject(owner: string, p: Project, upload: (string, string) -> Option<string>): (r: Project)
    ensures r == p.(images := r.images)
    ensures |r.images| == |p.images|
    ensures forall i :: 0 <= i < |p.images| ==> r.images[i] == SavedImage(owner, p.id, i, p.images[i], upload)
  {
    p.(images := seq(|p.images|, i requires 0 <= i < |p.images| => SavedImage(owner, p.id, i, p.images[i], upload)))
  }

  /** A save whose uploads all fail leaves every project as it was. */
  lemma FailedUploadsKeepProjects(owner: string, ps: seq<Project>, upload: (string, string) -> Option<string>)
    requires forall path, url :: upload(path, url) == None
    ensures forall k :: 0 <= k < |ps| ==> SavedProject(owner, ps[k], upload) == ps[k]
  {
    forall k | 0 <= k < |ps| ensures SavedProject(owner, ps[k], upload) == ps[k] {
      var p := ps[k];
      var r := SavedProject(owner, p, upload);
      assert r.images == p.images;
    }
  }

  // ---------------------------------------------------------------------------
  // The page state

  /** The projects whose image lists respect the cap. */
  predicate ImagesCapped(ps: seq<Project>) {
    forall k :: 0 <= k < |ps| ==> |ps[k].images| <= MaxImages
  }

  class IntakeForm {
    var skills: seq<string>
    var skillInput: string
    var certifications: seq<string>
    var certInput: string
    var languages: seq<string>
    var langInput: string
    var projects: seq<Project>

    /** What the page keeps true: tag lists without duplicates and at most
        three images per project. */
    predicate Valid()
      reads this
    {
      NoDups(skills) && NoDups(certifications) && NoDups(languages) && ImagesCapped(projects)
    }

    /** The empty page. */
    constructor ()
      ensures Valid()
      ensures skills == [] && certifications == [] && languages == [] && projects == []
      ensures skillInput == "" && certInput == "" && langInput == ""
    {
      skills, skillInput := [], "";
      certifications, certInput := [], "";
      languages, langInput := [], "";
      projects := [];
    }

    method AddSkill()
      modifies this`skills, this`skillInput
      requires Valid()
      ensures Valid()
      ensures TagEdit(skills, skillInput) == AddTag(old(skills), old(skillInput))
    {
      var r := AddTag(skills, skillInput);
      ghost var a, b, ps := certifications, languages, projects;
      assert NoDups(a) && NoDups(b) && ImagesCapped(ps);
      skills, skillInput := r.tags, r.input;
      assert certifications == a && languages == b && projects == ps;
    }

    method RemoveSkill(s: string)
      modifies this`skills
      requires Valid()
      ensures Valid()
      ensures skills == RemoveAll(old(skills), s)
    {
      skills := RemoveAll(skills, s);
      RemoveAllKeepsDistinct(old(skills), s);
    }

    method AddCert()
      modifies this`certifications, this`certInput
      requires Valid()
      ensures Valid()
      ensures TagEdit(certifications, certInput) == AddTag(old(certifications), old(certInput))
    {
      var r := AddTag(certifications, certInput);
      ghost var a, b, ps := skills, languages, projects;
      assert NoDups(a) && NoDups(b) && ImagesCapped(ps);
      certifications, certInput := r.tags, r.input;
      assert skills == a && languages == b && projects == ps;
    }

    method RemoveCert(c: string)
      modifies this`certifications
      requires Valid()
      ensures Valid()
      ensures certifications == RemoveAll(old(certifications), c)
    {
      certifications := RemoveAll(certifications, c);
      RemoveAllKeepsDistinct(old(certifications), c);
    }

    method AddLang()
      modifies this`languages, this`langInput
      requires Valid()
      ensures Valid()
      ensures TagEdit(languages, langInput) == AddTag(old(languages), old(langInput))
    {
      var r := AddTag(languages, langInput);
      ghost var a, b, ps := skills, certifications, projects;
      assert NoDups(a) && NoDups(b) && ImagesCapped(ps);
      languages, langInput := r.tags, r.input;
      assert skills == a && certifications == b && projects == ps;
    }

    method RemoveLang(l: string)
      modifies this`languages
      requires Valid()
      ensures Valid()
      ensures languages == RemoveAll(old(languages), l)
    {
      languages := RemoveAll(languages, l);
      RemoveAllKeepsDistinct(old(languages), l);
    }

    method AddProject(id: string)
      modifies this`projects
      requires Valid()
      ensures Valid()
      ensures projects == WithNewProject(old(projects), id)
    {
      projects := WithNewProject(projects, id);
    }

    method RemoveProject(id: string)
      modifies this`projects
      requires Valid()
      ensures Valid()
      ensures projects == WithoutProject(old(projects), id)
    {
      projects := WithoutProject(projects, id);
      forall k | 0 <= k < |projects| ensures |projects[k].images| <= MaxImages {
        assert projects[k] in projects;
        var j :| 0 <= j < |old(projects)| && old(projects)[j] == projects[k];
      }
    }

    /** The page's own updates patch names, descriptions and the software and
        hardware lists; a patch that sets images keeps the cap when it
        respects it. */
    method UpdateProject(id: string, patch: ProjectPatch)
      modifies this`projects
      requires Valid()
      ensures patch.images.None? || |patch.images.value| <= MaxImages ==> Valid()
      ensures projects == Patched(old(projects), id, patch)
    {
      projects := Patched(projects, id, patch);
    }

    method HandleProjectImage(id: string, dataUrls: seq<string>)
      modifies this`projects
      requires Valid()
      ensures Valid()
      ensures projects == WithImages(old(projects), id, dataUrls)
    {
      if |dataUrls| > 0 && FirstWithId(projects, id).Some? {
        ImageCap(projects, id, dataUrls);
      }
      projects := WithImages(projects, id, dataUrls);
    }

    method RemoveProjectImage(id: string, url: string)
      modifies this`projects
      requires Valid()
      ensures Valid()
      ensures projects == WithoutImage(old(projects), id, url)
    {
      match FirstWithId(projects, id)
      case None =>
      case Some(k) =>
        var kept := RemoveAll(projects[k].images, url);
        RemoveAllNoLonger(projects[k].images, url);
        assert |kept| <= MaxImages;
      projects := WithoutImage(projects, id, url);
    }

    method AddProjectSkill(id: string, value: string)
      modifies this`projects
      requires Valid()
      ensures Valid()
      ensures projects == WithProjectSkill(old(projects), id, value)
    {
      projects := WithProjectSkill(projects, id, value);
    }

    /** The project list that `saveAll` stores: every image of every project
        rewritten by `SavedImage`, in order. `userId` is the signed-in user
        (`None` when there is none); uploads go under "anon" then. */
    method SaveAll(userId: Option<string>, upload: (string, string) -> Option<string>)
      returns (saved: seq<Project>)
      ensures |saved| == |projects|
      ensures forall k :: 0 <= k < |projects| ==>
        saved[k] == SavedProject(OrElse(userId, "anon"), projects[k], upload)
    {
      var owner := OrElse(userId, "anon");
      saved := [];
      var k := 0;
      while k < |projects|
        invariant 0 <= k <= |projects|
        invariant |saved| == k
        invariant forall j :: 0 <= j < k ==> saved[j] == SavedProject(owner, projects[j], upload)
      {
        var p := projects[k];
        var uploaded: seq<string> := [];
        var i := 0;
        while i < |p.images|
          invariant 0 <= i <= |p.images|
          invariant |uploaded| == i
          invariant forall j :: 0 <= j < i ==> uploaded[j] == SavedImage(owner, p.id, j, p.images[j], upload)
        {
          var url := p.images[i];
          if url != "" && StartsWith(url, "data:") {
            var publicUrl := upload(ImagePath(owner, p.id, i), url);
            if publicUrl.Some? && publicUrl.value != "" {
              uploaded := uploaded + [publicUrl.value];
            } else {
              uploaded := uploaded + [url];
            }
          } else {
            uploaded := uploaded + [url];
          }
          i := i + 1;
        }
        saved := saved + [p.(images := uploaded)];
        k := k + 1;
      }
    }
  }

  /** Removing from a duplicate-free list leaves it duplicate-free. */
  lemma {:induction false} RemoveAllKeepsDistinct(xs: seq<string>, x: string)
    requires NoDups(xs)
    ensures NoDups(RemoveAll(xs, x))
  {
    if xs != [] {
      assert NoDups(xs[1..]) by {
        forall i, j | 0 <= i < j < |xs[1..]| ensures xs[1..][i] != xs[1..][j] {
          assert xs[1..][i] == xs[i + 1] && xs[1..][j] == xs[j + 1];
        }
      }
      RemoveAllKeepsDistinct(xs[1..], x);
      if xs[0] != x {
        var r := RemoveAll(xs[1..], x);
        assert xs[0] !in xs[1..] by {
          forall j | 0 <= j < |xs[1..]| ensures xs[1..][j] != xs[0] {
            assert xs[1..][j] == xs[j + 1];
          }
        }
        assert multiset(r)[xs[0]] == multiset(xs[1..])[xs[0]] == 0;
        assert xs[0] !in r;
      }
    }
  }

  /** Removal never lengthens a list. */
  lemma {:induction false} RemoveAllNoLonger(xs: seq<string>, x: string)
    ensures |RemoveAll(xs, x)| <= |xs|
  {
    if xs != [] {
      RemoveAllNoLonger(xs[1..], x);
    }
  }
}
