// The properties page (src/pages/properties/PropertiesPage.tsx): saving a
// property with its attachments, the cascade delete of a property and its
// plots, the plot form, and the attachment callbacks that feed the pending
// list and the deletion queue.

module PropertiesPage {
  import opened Seqs
  import IdLists
  import opened Text
  import opened Js
  import opened Records
  import opened AppContext
  import opened PropertyAttachments
  import FieldApplications

  // ---------------------------------------------------------- storage paths

  /** The bucket name that separates a public URL from its storage path. */
  const Marker: string := "property-attachments/"

  /** t occurs in s at position j. */
  predicate OccursAt(s: string, t: string, j: nat)
  {
    j <= |s| && StartsWith(s[j..], t)
  }

  /** The first position where t occurs in s (String.prototype.indexOf). */
  function Find(s: string, t: string): (r: Option<nat>)
    requires |t| > 0
    ensures r.Some? ==> r.value + |t| <= |s| && OccursAt(s, t, r.value)
    ensures r.Some? ==> forall j :: 0 <= j < r.value ==> !OccursAt(s, t, j)
    decreases |s|
  {
    if s == [] then None
    else if StartsWith(s, t) then Some(0)
    else
      var k := Find(s[1..], t);
      assert forall j: nat :: 1 <= j <= |s| ==> s[j..] == s[1..][j - 1..];
      assert forall j: nat :: 1 <= j <= |s| ==> (OccursAt(s, t, j) <==> OccursAt(s[1..], t, j - 1));
      assert !OccursAt(s, t, 0);
      if k.None? then None else Some(k.value + 1)
  }

  /** Find succeeds exactly when String.prototype.includes would. */
  lemma {:induction false} FindContains(s: string, t: string)
    requires |t| > 0
    ensures Find(s, t).Some? <==> Contains(s, t)
    decreases |s|
  {
    if s != [] && !StartsWith(s, t) {
      FindContains(s[1..], t);
    }
  }

  /** url.split(Marker)[1]: the text between the first and the second
      occurrence of the marker, undefined when the marker is absent. */
  function SecondPiece(url: string): Option<string>
  {
    match Find(url, Marker)
      case None => None
      case Some(i) =>
        var rest := url[i + |Marker|..];
        match Find(rest, Marker)
          case None => Some(rest)
          case Some(k) => Some(rest[..k])
  }

  /** The storage path of an attachment, None when filter(Boolean) drops it
      (no marker, or nothing after it). */
  function StoragePath(url: string): (r: Option<string>)
  {
    var p := SecondPiece(url);
    if p.Some? && p.value != "" then p else None
  }

  /** attachments.map(path).filter(Boolean) */
  function PathCandidates(atts: seq<PropertyAttachment>): seq<string>
  {
    if atts == [] then []
    else (if StoragePath(atts[0].url).Some? then [StoragePath(atts[0].url).value] else []) + PathCandidates(atts[1..])
  }

  /** Array.from(new Set(...)): the paths once each, in first-seen order. */
  function PathsToDelete(queue: seq<PropertyAttachment>): seq<string>
  {
    Distinct(PathCandidates(queue))
  }

  /** A path is derived only from a URL that contains the marker, and is
      never empty. */
  lemma StoragePathSpec(url: string)
    ensures StoragePath(url).Some? ==> StoragePath(url).value != "" && Contains(url, Marker)
  {
    FindContains(url, Marker);
  }

  /** The candidates are exactly the paths of the queued attachments. */
  lemma {:induction false} PathCandidatesSpec(atts: seq<PropertyAttachment>)
    ensures forall p :: p in PathCandidates(atts) <==> exists a :: a in atts && StoragePath(a.url) == Some(p)
  {
    if atts != [] {
      PathCandidatesSpec(atts[1..]);
      assert forall a :: a in atts <==> a == atts[0] || a in atts[1..];
    }
  }

  /** The paths removed from storage are duplicate-free, and each belongs to
      a queued attachment whose URL holds the marker. */
  lemma PathsToDeleteSpec(queue: seq<PropertyAttachment>)
    ensures NoDuplicates(PathsToDelete(queue))
    ensures forall p :: p in PathsToDelete(queue) <==> exists a :: a in queue && StoragePath(a.url) == Some(p)
    ensures forall p :: p in PathsToDelete(queue) ==> p != ""
  {
    DistinctSpec(PathCandidates(queue));
    PathCandidatesSpec(queue);
  }

  // ------------------------------------------------------------- the forms

  datatype PropertyForm = PropertyForm(
    name: string, location: string, totalArea: string, cultivatedArea: string,
    mainCrop: string, manager: string, status: string, attachments: seq<PropertyAttachment>)

  function EmptyPropertyForm(): PropertyForm
  {
    PropertyForm("", "", "", "", "", "", "active", [])
  }

  datatype PlotForm = PlotForm(name: string, area: string, crop: string, status: string)

  /** parseFloat(x) || 0 */
  function AreaOf(s: string): real
  {
    OrZero(ParseFloat(s))
  }

  /** The record the form saves under the given id. */
  function PropertyRecord(f: PropertyForm, id: int, atts: seq<PropertyAttachment>): Property
  {
    Property(id, f.name, f.location, AreaOf(f.totalArea), AreaOf(f.cultivatedArea), f.mainCrop, f.manager, f.status, atts)
  }

  /** An unparseable area field is saved as 0. */
  lemma AreaDefaultsToZero(s: string)
    ensures ParseFloat(s).None? ==> AreaOf(s) == 0.0
    ensures ParseFloat(s).Some? ==> AreaOf(s) == ParseFloat(s).value
    ensures AreaOf("") == 0.0
  {
  }

  /** The id a new property gets: the edited id when there is one, else now. */
  function NewPropertyId(e: Option<int>, now: int): int
  {
    if e.Some? then e.value else now
  }

  /** The property list after a save. */
  function SavedProperties(ps: seq<Property>, f: PropertyForm, e: Option<int>, atts: seq<PropertyAttachment>, now: int): seq<Property>
  {
    if Editing(e) then Map(ps, (p: Property) => if p.id == e.value then PropertyRecord(f, p.id, atts) else p)
    else [PropertyRecord(f, NewPropertyId(e, now), atts)] + ps
  }

  /** Editing rewrites only the records with the edited id, keeping their id;
      creating puts one new record in front of the unchanged list. */
  lemma SavedPropertiesSpec(ps: seq<Property>, f: PropertyForm, e: Option<int>, atts: seq<PropertyAttachment>, now: int)
    ensures Editing(e) ==> |SavedProperties(ps, f, e, atts, now)| == |ps|
    ensures Editing(e) ==> forall i :: 0 <= i < |ps| ==>
      SavedProperties(ps, f, e, atts, now)[i] == (if ps[i].id == e.value then PropertyRecord(f, ps[i].id, atts) else ps[i])
    ensures !Editing(e) ==> SavedProperties(ps, f, e, atts, now) == [PropertyRecord(f, NewPropertyId(e, now), atts)] + ps
    ensures forall i :: 0 <= i < |SavedProperties(ps, f, e, atts, now)| && SavedProperties(ps, f, e, atts, now)[i] !in ps ==>
      SavedProperties(ps, f, e, atts, now)[i].attachments == atts
  {
  }

  /** The attachment the upload loop builds for the k-th pending file.
      publicUrl stands for getPublicUrl and idOf for the random ids. */
  function UploadedAttachment(item: PendingFile, k: nat, pid: int, c: Clock,
    publicUrl: string -> string, idOf: nat -> string): PropertyAttachment
  {
    var fileName := IntToString(pid) + "/" + IntToString(c.now) + "-" + item.file.name;
    PropertyAttachment(idOf(k), item.file.name, publicUrl(fileName), item.file.kind, item.file.size, c.iso)
  }

  function Uploaded(items: seq<PendingFile>, pid: int, c: Clock, publicUrl: string -> string, idOf: nat -> string): (r: seq<PropertyAttachment>)
    ensures |r| == |items|
  {
    seq(|items|, k requires 0 <= k < |items| => UploadedAttachment(items[k], k, pid, c, publicUrl, idOf))
  }

  /** Each uploaded attachment carries its file's name, type and size, and
      the public URL of the storage name "<property>/<now>-<file name>". */
  lemma UploadedSpec(items: seq<PendingFile>, pid: int, c: Clock, publicUrl: string -> string, idOf: nat -> string)
    ensures forall k :: 0 <= k < |items| ==>
      var a := Uploaded(items, pid, c, publicUrl, idOf)[k];
      a.name == items[k].file.name && a.kind == items[k].file.kind && a.size == items[k].file.size && a.createdAt == c.iso
    ensures forall k :: 0 <= k < |items| ==>
      var a := Uploaded(items, pid, c, publicUrl, idOf)[k];
      a.id == idOf(k) && a.url == publicUrl(IntToString(pid) + "/" + IntToString(c.now) + "-" + items[k].file.name)
  {
  }

  /** The plot record the plot form saves. */
  function PlotRecord(f: PlotForm, id: int, propertyId: int): Plot
  {
    Plot(id, propertyId, f.name, AreaOf(f.area), f.crop)
  }

  function SavedPlots(plots: seq<Plot>, f: PlotForm, e: Option<int>, propertyId: int, now: int): seq<Plot>
  {
    if Editing(e) then Map(plots, (p: Plot) => if p.id == e.value then PlotRecord(f, p.id, propertyId) else p)
    else [PlotRecord(f, now, propertyId)] + plots
  }

  /** Every saved plot belongs to the selected property; editing changes only
      the plot with the edited id, creating prepends one plot. */
  lemma SavedPlotsSpec(plots: seq<Plot>, f: PlotForm, e: Option<int>, propertyId: int, now: int)
    ensures Editing(e) ==> |SavedPlots(plots, f, e, propertyId, now)| == |plots|
    ensures Editing(e) ==> forall i :: 0 <= i < |plots| ==>
      SavedPlots(plots, f, e, propertyId, now)[i] == (if plots[i].id == e.value then PlotRecord(f, plots[i].id, propertyId) else plots[i])
    ensures !Editing(e) ==> SavedPlots(plots, f, e, propertyId, now) == [PlotRecord(f, now, propertyId)] + plots
    ensures forall i :: 0 <= i < |SavedPlots(plots, f, e, propertyId, now)| && SavedPlots(plots, f, e, propertyId, now)[i] !in plots ==>
      SavedPlots(plots, f, e, propertyId, now)[i].propertyId == propertyId
  {
  }

  // ----------------------------------------------------------- cascade

  function PropertyId(p: Property): int
  {
    p.id
  }

  /** properties.find(p => p.id === id) */
  function FindProperty(ps: seq<Property>, id: int): Option<Property>
  {
    IdLists.Find(ps, PropertyId, id)
  }

  function NotProperty(id: int): Property -> bool
  {
    (p: Property) => p.id != id
  }

  function NotOnProperty(id: int): Plot -> bool
  {
    (p: Plot) => p.propertyId != id
  }

  function NotPlot(id: int): Plot -> bool
  {
    (p: Plot) => p.id != id
  }

  /** Deleting a property removes it and every plot on it and nothing else,
      keeping the others in order. */
  lemma CascadeSpec(ps: seq<Property>, plots: seq<Plot>, id: int)
    ensures forall p :: p in Filter(ps, NotProperty(id)) <==> p in ps && p.id != id
    ensures forall q :: q in Filter(plots, NotOnProperty(id)) <==> q in plots && q.propertyId != id
    ensures SubseqOf(Filter(ps, NotProperty(id)), ps) && SubseqOf(Filter(plots, NotOnProperty(id)), plots)
  {
    FilterMembers(ps, NotProperty(id));
    FilterMembers(plots, NotOnProperty(id));
    FilterIsSubseq(ps, NotProperty(id));
    FilterIsSubseq(plots, NotOnProperty(id));
  }

  // ------------------------------------------------- attachment callbacks

  function FindAttachment(atts: seq<PropertyAttachment>, id: string): (r: Option<PropertyAttachment>)
    ensures r.Some? ==> r.value in atts && r.value.id == id
    ensures r.None? ==> !HasAttachment(atts, id)
  {
    if atts == [] then None
    else if atts[0].id == id then Some(atts[0])
    else
      var r := FindAttachment(atts[1..], id);
      assert r.None? ==> forall i :: 1 <= i < |atts| ==> atts[i].id == atts[1..][i - 1].id;
      r
  }

  function NotAttachment(id: string): PropertyAttachment -> bool
  {
    (a: PropertyAttachment) => a.id != id
  }

  function NotPending(id: string): PendingFile -> bool
  {
    (p: PendingFile) => p.id != id
  }

  /** The pending entries onAddFiles makes, one per file in order. */
  function NewPending(files: seq<File>, previewOf: File -> string, idOf: nat -> string): (r: seq<PendingFile>)
    ensures |r| == |files|
  {
    seq(|files|, k requires 0 <= k < |files| => PendingFile(files[k], previewOf(files[k]), idOf(k)))
  }

  /** With unique ids, removing an attachment that is there drops exactly one
      entry, and the entry is gone. */
  lemma {:induction false} RemoveOneAttachment(atts: seq<PropertyAttachment>, a: PropertyAttachment)
    requires forall i, j :: 0 <= i < j < |atts| ==> atts[i].id != atts[j].id
    requires a in atts
    ensures |Filter(atts, NotAttachment(a.id))| == |atts| - 1
    ensures a !in Filter(atts, NotAttachment(a.id))
  {
    FilterMembers(atts, NotAttachment(a.id));
    if atts[0] == a {
      FilterAll(atts[1..], NotAttachment(a.id));
    } else {
      RemoveOneAttachment(atts[1..], a);
    }
  }

  function SaveAction(e: Option<int>): string
  {
    if Editing(e) then "Editou propriedade" else "Adicionou propriedade"
  }

  /** The store after a successful property submit. */
  function Submitted(s: Lists, f: PropertyForm, e: Option<int>, atts: seq<PropertyAttachment>, c: Clock): Lists
  {
    s.(properties := SavedProperties(s.properties, f, e, atts, c.now),
       activities := LogActivity(s.activities, Activity(c.now, SaveAction(e), f.name, c.iso, "neutral")))
  }

  // --------------------------------------------------------------- the page

  /** The page's own state slots. */
  datatype PageState = PageState(
    isPropertyFormOpen: bool, editingPropertyId: Option<int>, propertyForm: PropertyForm,
    pendingFiles: seq<PendingFile>, attachmentsToDelete: seq<PropertyAttachment>, isUploading: bool,
    isPlotFormOpen: bool, selectedPropertyId: Option<int>, editingPlotId: Option<int>, plotForm: PlotForm)

  function ClosedPropertyForm(s: PageState): PageState
  {
    s.(isPropertyFormOpen := false, editingPropertyId := None, propertyForm := EmptyPropertyForm(),
       pendingFiles := [], attachmentsToDelete := [])
  }

  class PropertiesView {
    const store: AppStore
    var isPropertyFormOpen: bool
    var editingPropertyId: Option<int>
    var propertyForm: PropertyForm
    var pendingFiles: seq<PendingFile>
    var attachmentsToDelete: seq<PropertyAttachment>
    var isUploading: bool
    var isPlotFormOpen: bool
    var selectedPropertyId: Option<int>
    var editingPlotId: Option<int>
    var plotForm: PlotForm

    function Page(): PageState
      reads this
    {
      PageState(isPropertyFormOpen, editingPropertyId, propertyForm, pendingFiles, attachmentsToDelete,
        isUploading, isPlotFormOpen, selectedPropertyId, editingPlotId, plotForm)
    }

    /** The plot form is only ever opened for a property. */
    predicate Valid()
      reads this
    {
      isPlotFormOpen ==> selectedPropertyId.Some?
    }

    constructor (store: AppStore)
      ensures this.store == store && Valid()
      ensures Page() == PageState(false, None, EmptyPropertyForm(), [], [], false,
        false, None, None, PlotForm("", "", "", "active"))
    {
      this.store := store;
      isPropertyFormOpen, editingPropertyId, propertyForm := false, None, EmptyPropertyForm();
      pendingFiles, attachmentsToDelete, isUploading := [], [], false;
      isPlotFormOpen, selectedPropertyId, editingPlotId := false, None, None;
      plotForm := PlotForm("", "", "", "active");
    }

    /** "Nova Propriedade" */
    method OpenNewProperty()
      modifies this
      ensures Page() == ClosedPropertyForm(old(Page())).(isPropertyFormOpen := true)
    {
      isPropertyFormOpen, editingPropertyId, propertyForm := true, None, EmptyPropertyForm();
      pendingFiles, attachmentsToDelete := [], [];
    }

    /** The edit button of a property card: the form is filled from it. */
    method EditProperty(p: Property)
      modifies this
      ensures Page() == old(Page()).(isPropertyFormOpen := true, editingPropertyId := Some(p.id),
        propertyForm := PropertyForm(p.name, p.location, NumberToString(p.totalArea), NumberToString(p.cultivatedArea),
          p.mainCrop, p.manager, p.status, p.attachments),
        pendingFiles := [], attachmentsToDelete := [])
    {
      editingPropertyId := Some(p.id);
      propertyForm := PropertyForm(p.name, p.location, NumberToString(p.totalArea), NumberToString(p.cultivatedArea),
        p.mainCrop, p.manager, p.status, p.attachments);
      pendingFiles, attachmentsToDelete := [], [];
      isPropertyFormOpen := true;
    }

    /** The upload loop: one attachment per pending file, in order, or a
        failure when the upload of some file fails (failAt). */
    method UploadPending(pid: int, c: Clock, publicUrl: string -> string, idOf: nat -> string, failAt: Option<nat>)
      returns (ok: bool, uploaded: seq<PropertyAttachment>)
      ensures ok <==> !(failAt.Some? && failAt.value < |pendingFiles|)
      ensures ok ==> uploaded == Uploaded(pendingFiles, pid, c, publicUrl, idOf)
    {
      uploaded := [];
      var k := 0;
      while k < |pendingFiles|
        invariant 0 <= k <= |pendingFiles|
        invariant failAt.Some? ==> failAt.value >= k
        invariant uploaded == Uploaded(pendingFiles[..k], pid, c, publicUrl, idOf)
      {
        if failAt == Some(k) {
          return false, uploaded;
        }
        assert Uploaded(pendingFiles[..k + 1], pid, c, publicUrl, idOf) ==
          uploaded + [UploadedAttachment(pendingFiles[k], k, pid, c, publicUrl, idOf)];
        uploaded := uploaded + [UploadedAttachment(pendingFiles[k], k, pid, c, publicUrl, idOf)];
        k := k + 1;
      }
      assert pendingFiles[..k] == pendingFiles;
      ok := true;
    }

    /** The store writes of a successful submit. */
    method SaveProperty(f: PropertyForm, e: Option<int>, atts: seq<PropertyAttachment>, c: Clock)
      modifies store
      ensures store.Contents() == Submitted(old(store.Contents()), f, e, atts, c)
    {
      store.properties := SavedProperties(store.properties, f, e, atts, c.now);
      store.AddActivity(SaveAction(e), f.name, "neutral", c);
    }

    /** handlePropertySubmit. A failed upload leaves everything but the
        uploading flag as it was; otherwise the record is saved with the kept
        attachments followed by the uploaded ones, the storage paths of the
        queue are removed, an activity is logged and the form is reset. */
    method SubmitProperty(c: Clock, publicUrl: string -> string, idOf: nat -> string, failAt: Option<nat>)
      returns (removed: seq<string>)
      modifies this, store
      ensures failAt.Some? && failAt.value < |old(pendingFiles)| ==>
        store.Contents() == old(store.Contents()) && removed == [] && Page() == old(Page()).(isUploading := false)
      ensures !(failAt.Some? && failAt.value < |old(pendingFiles)|) ==>
        removed == PathsToDelete(old(attachmentsToDelete)) &&
        Page() == ClosedPropertyForm(old(Page())).(isUploading := false) &&
        store.Contents() == Submitted(old(store.Contents()), old(propertyForm), old(editingPropertyId),
          old(propertyForm).attachments + Uploaded(old(pendingFiles), NewPropertyId(old(editingPropertyId), c.now), c, publicUrl, idOf), c)
    {
      var f, e := propertyForm, editingPropertyId;
      isUploading := true;
      var ok, uploaded := UploadPending(NewPropertyId(e, c.now), c, publicUrl, idOf, failAt);
      if !ok {
        isUploading := false;
        return [];
      }
      removed := PathsToDelete(attachmentsToDelete);
      SaveProperty(f, e, f.attachments + uploaded, c);
      CloseAfterSave();
    }

    /** The resets after a save and the finally block. */
    method CloseAfterSave()
      modifies this
      ensures Page() == ClosedPropertyForm(old(Page())).(isUploading := false)
    {
      isPropertyFormOpen, editingPropertyId, propertyForm := false, None, EmptyPropertyForm();
      pendingFiles, attachmentsToDelete := [], [];
      isUploading := false;
    }

    /** deleteProperty: after confirmation the property, its plots and the
        storage objects of its attachments go, and an activity is logged. */
    method DeleteProperty(id: int, confirmed: bool, c: Clock) returns (removed: seq<string>)
      modifies store
      ensures var prop := FindProperty(old(store.properties), id);
        if prop.None? || !confirmed then
          store.Contents() == old(store.Contents()) && removed == []
        else
          removed == PathCandidates(prop.value.attachments) &&
          store.Contents() == old(store.Contents()).(
            properties := Filter(old(store.properties), NotProperty(id)),
            plots := Filter(old(store.plots), NotOnProperty(id)),
            activities := LogActivity(old(store.activities), Activity(c.now, "Removeu propriedade", prop.value.name, c.iso, "neutral")))
    {
      var prop := FindProperty(store.properties, id);
      if prop.None? || !confirmed {
        return [];
      }
      removed := PathCandidates(prop.value.attachments);
      store.properties := Filter(store.properties, NotProperty(id));
      store.plots := Filter(store.plots, NotOnProperty(id));
      store.AddActivity("Removeu propriedade", prop.value.name, "neutral", c);
    }

    /** "Adicionar Talhão": a new plot for p, its crop preset. */
    method OpenNewPlot(p: Property)
      modifies this
      ensures Valid()
      ensures Page() == old(Page()).(selectedPropertyId := Some(p.id), isPlotFormOpen := true,
        editingPlotId := None, plotForm := PlotForm("", "", p.mainCrop, "active"))
    {
      selectedPropertyId, isPlotFormOpen := Some(p.id), true;
      editingPlotId, plotForm := None, PlotForm("", "", p.mainCrop, "active");
    }

    /** The edit button of a plot. */
    method EditPlot(p: Property, plot: Plot)
      modifies this
      ensures Valid()
      ensures Page() == old(Page()).(selectedPropertyId := Some(p.id), editingPlotId := Some(plot.id),
        plotForm := PlotForm(plot.name, NumberToString(plot.area), plot.crop, "active"), isPlotFormOpen := true)
    {
      selectedPropertyId, editingPlotId := Some(p.id), Some(plot.id);
      plotForm := PlotForm(plot.name, NumberToString(plot.area), plot.crop, "active");
      isPlotFormOpen := true;
    }

    /** handlePlotSubmit */
    method SubmitPlot(c: Clock)
      requires Valid() && isPlotFormOpen
      modifies this, store
      ensures Valid()
      ensures store.Contents() == old(store.Contents()).(
        plots := SavedPlots(old(store.plots), old(plotForm), old(editingPlotId), old(selectedPropertyId).value, c.now),
        activities := LogActivity(old(store.activities), Activity(c.now,
          if Editing(old(editingPlotId)) then "Editou talhão" else "Adicionou talhão", old(plotForm).name, c.iso, "neutral")))
      ensures Page() == old(Page()).(isPlotFormOpen := false, editingPlotId := None, plotForm := PlotForm("", "", "", "active"))
    {
      store.plots := SavedPlots(store.plots, plotForm, editingPlotId, selectedPropertyId.value, c.now);
      var action := if Editing(editingPlotId) then "Editou talhão" else "Adicionou talhão";
      store.AddActivity(action, plotForm.name, "neutral", c);
      isPlotFormOpen, editingPlotId, plotForm := false, None, PlotForm("", "", "", "active");
    }

    /** deletePlot */
    method DeletePlot(id: int, confirmed: bool, c: Clock)
      modifies store
      ensures var plot := FieldApplications.FindPlot(old(store.plots), id);
        if plot.None? || !confirmed then store.Contents() == old(store.Contents())
        else store.Contents() == old(store.Contents()).(
          plots := Filter(old(store.plots), NotPlot(id)),
          activities := LogActivity(old(store.activities), Activity(c.now, "Removeu talhão", plot.value.name, c.iso, "neutral")))
    {
      var plot := FieldApplications.FindPlot(store.plots, id);
      if plot.Some? && confirmed {
        store.plots := Filter(store.plots, NotPlot(id));
        store.AddActivity("Removeu talhão", plot.value.name, "neutral", c);
      }
    }

    /** onAddFiles: the accepted files join the pending list at its end.
        previewOf stands for URL.createObjectURL and idOf for the random ids. */
    method AddFiles(files: seq<File>, previewOf: File -> string, idOf: nat -> string)
      modifies this
      ensures Page() == old(Page()).(pendingFiles := old(pendingFiles) + NewPending(files, previewOf, idOf))
      ensures ShownCount(propertyForm.attachments, pendingFiles) == ShownCount(old(propertyForm).attachments, old(pendingFiles)) + |files|
    {
      pendingFiles := pendingFiles + NewPending(files, previewOf, idOf);
    }

    /** onRemovePending */
    method RemovePending(id: string)
      modifies this
      ensures Page() == old(Page()).(pendingFiles := Filter(old(pendingFiles), NotPending(id)))
    {
      pendingFiles := Filter(pendingFiles, NotPending(id));
    }

    /** onRemoveExisting: the attachment moves from the form to the queue. */
    method RemoveExisting(id: string)
      modifies this
      ensures var found := FindAttachment(old(propertyForm).attachments, id);
        Page() == old(Page()).(
          attachmentsToDelete := old(attachmentsToDelete) + (if found.Some? then [found.value] else []),
          propertyForm := old(propertyForm).(attachments := Filter(old(propertyForm).attachments, NotAttachment(id))))
    {
      var found := FindAttachment(propertyForm.attachments, id);
      if found.Some? {
        attachmentsToDelete := attachmentsToDelete + [found.value];
      }
      propertyForm := propertyForm.(attachments := Filter(propertyForm.attachments, NotAttachment(id)));
    }

    /** onUpdatePendingFile: the file and preview of the entry with that id
        are replaced. */
    method UpdatePending(id: string, newFile: File, newPreview: string)
      modifies this
      ensures Page() == old(Page()).(pendingFiles :=
        Map(old(pendingFiles), (p: PendingFile) => if p.id == id then p.(file := newFile, preview := newPreview) else p))
    {
      pendingFiles := Map(pendingFiles, (p: PendingFile) => if p.id == id then p.(file := newFile, preview := newPreview) else p);
    }

    /** onUpdateExistingFile: the old attachment is queued for deletion and
        leaves the form, and the edited file becomes one new pending entry. */
    method UpdateExisting(id: string, newFile: File, newPreview: string, freshId: string)
      modifies this
      ensures var found := FindAttachment(old(propertyForm).attachments, id);
        if found.None? then Page() == old(Page())
        else Page() == old(Page()).(
          attachmentsToDelete := old(attachmentsToDelete) + [found.value],
          propertyForm := old(propertyForm).(attachments := Filter(old(propertyForm).attachments, NotAttachment(id))),
          pendingFiles := old(pendingFiles) + [PendingFile(newFile, newPreview, freshId)])
    {
      var found := FindAttachment(propertyForm.attachments, id);
      if found.Some? {
        attachmentsToDelete := attachmentsToDelete + [found.value];
        propertyForm := propertyForm.(attachments := Filter(propertyForm.attachments, NotAttachment(id)));
        pendingFiles := pendingFiles + [PendingFile(newFile, newPreview, freshId)];
      }
    }
  }

  /** An image edited from a saved attachment always finds it: the route of
      the editor and the page's lookup agree, so the replacement queues the
      old file and adds one pending entry. */
  lemma EditedExistingIsReplaced(existing: seq<PropertyAttachment>, id: string, now: int, size: int, preview: string)
    ensures RouteEdit(existing, id, now, size, preview).UpdateExisting? <==> FindAttachment(existing, id).Some?
  {
  }

  /** A moved attachment leaves the form and enters the queue; with unique
      ids the form loses exactly one entry. */
  lemma RemoveExistingMoves(atts: seq<PropertyAttachment>, queue: seq<PropertyAttachment>, id: string)
    requires forall i, j :: 0 <= i < j < |atts| ==> atts[i].id != atts[j].id
    requires HasAttachment(atts, id)
    ensures var found := FindAttachment(atts, id);
      found.Some? && found.value !in Filter(atts, NotAttachment(id)) &&
      |Filter(atts, NotAttachment(id))| + |queue + [found.value]| == |atts| + |queue|
  {
    var found := FindAttachment(atts, id);
    RemoveOneAttachment(atts, found.value);
  }
}
