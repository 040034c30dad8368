/**
 * The document library's upload form: the chosen files (appended, removed
 * by position), its tag editor, the approver check boxes, and the upload
 * button, whose handler steps the progress bar from 0 to 100.
 */
module DocumentForm {
  import opened Common
  import TagList

  // ---------------------------------------------------------------------
  // Files
  // ---------------------------------------------------------------------

  /** handleFileSelect: the chosen files (none when the input has no list) after the ones already selected. */
  function HandleFileSelect(selected: seq<File>, chosen: Option<seq<File>>): (r: seq<File>)
    ensures |r| == |selected| + |chosen.GetOr([])|
    ensures r[..|selected|] == selected && r[|selected|..] == chosen.GetOr([])
  {
    selected + chosen.GetOr([])
  }

  /** removeFile: the file at `index` goes; an index out of range changes nothing. */
  function RemoveFile(selected: seq<File>, index: int): (r: seq<File>)
    ensures 0 <= index < |selected| ==>
      |r| == |selected| - 1
      && (forall j :: 0 <= j < index ==> r[j] == selected[j])
      && (forall j :: index <= j < |r| ==> r[j] == selected[j + 1])
    ensures !(0 <= index < |selected|) ==> r == selected
  {
    if 0 <= index < |selected| then selected[..index] + selected[index + 1..] else selected
  }

  /** Choosing one file and removing it again gives back the selection. */
  lemma RemoveJustSelected(selected: seq<File>, f: File)
    ensures RemoveFile(HandleFileSelect(selected, Some([f])), |selected|) == selected
  {
    assert (selected + [f])[..|selected|] == selected;
  }

  // ---------------------------------------------------------------------
  // Approvers
  // ---------------------------------------------------------------------

  /** The approvers the workflow tab offers, by id. */
  function AvailableApprovers(): seq<string> {
    ["1", "2", "3", "4"]
  }

  /** The approver check box: checking appends the id, unchecking drops every copy of it. */
  function ToggleApprover(approvers: seq<string>, id: string, checked: bool): (r: seq<string>)
    ensures checked ==> r == approvers + [id]
    ensures !checked ==> IsSubsequence(r, approvers) && forall a :: a in r <==> a in approvers && a != id
  {
    if checked then approvers + [id]
    else
      FilterIsSubsequence(approvers, IsNot(id));
      Filter(approvers, IsNot(id))
  }

  /** Checking and then unchecking an approver gives back the old list. */
  lemma CheckThenUncheck(approvers: seq<string>, id: string)
    requires id !in approvers
    ensures ToggleApprover(ToggleApprover(approvers, id, true), id, false) == approvers
  {
    FilterAppend(approvers, [id], IsNot(id));
    FilterAll(approvers, IsNot(id));
    assert [id][1..] == [];
  }

  /** The box shows `approvers.includes(id)`; clicking it toggles that and keeps the list free of repeats. */
  lemma ClickKeepsDistinct(approvers: seq<string>, id: string)
    requires Distinct(approvers)
    ensures var r := ToggleApprover(approvers, id, id !in approvers);
      Distinct(r) && (id in r <==> id !in approvers)
  {
    if id in approvers {
      FilterKeepsDistinct(approvers, IsNot(id));
    } else {
      var r := approvers + [id];
      forall i, j | 0 <= i < |r| && 0 <= j < |r| && r[i] == r[j] ensures i == j {
        assert i < |approvers| ==> r[i] in approvers;
        assert j < |approvers| ==> r[j] in approvers;
      }
    }
  }

  // ---------------------------------------------------------------------
  // Tags: the shared tag editor on the form's tags and tag box
  // ---------------------------------------------------------------------

  function AddTag(tags: seq<string>, newTag: string): (r: (seq<string>, string))
    ensures (r.0 == tags) == (r.1 == newTag)
    ensures r.0 != tags ==> r.0 == tags + [Trim(newTag)] && r.1 == ""
  {
    var st := TagList.AddTag(TagList.TagInput(tags, newTag));
    (st.tags, st.current)
  }

  // ---------------------------------------------------------------------
  // Upload
  // ---------------------------------------------------------------------

  /** The upload button is disabled with no file selected or while an upload runs. */
  predicate UploadDisabled(selected: seq<File>, isUploading: bool) {
    |selected| == 0 || isUploading
  }

  /** The progress values handleUpload shows, in order. */
  function ProgressSteps(): (r: seq<int>)
    ensures |r| == 11 && r[0] == 0 && r[10] == 100
    ensures forall k :: 0 <= k < 10 ==> r[k + 1] == r[k] + 10
  {
    seq(11, (k: int) => 10 * k)
  }

  /** The upload state of the form. `shown` records every value the progress bar is set to. */
  class Uploader {
    var uploadProgress: int
    var isUploading: bool
    ghost var shown: seq<int>

    constructor ()
      ensures uploadProgress == 0 && !isUploading && shown == []
    {
      uploadProgress := 0;
      isUploading := false;
      shown := [];
    }

    /** handleUpload: on for the run, progress 0, 10, …, 100, then off. */
    method HandleUpload()
      modifies this
      ensures shown == old(shown) + ProgressSteps()
      ensures uploadProgress == 100 && !isUploading
    {
      isUploading := true;
      var i := 0;
      while i <= 100
        invariant 0 <= i <= 110 && i % 10 == 0 && isUploading
        invariant i > 0 ==> uploadProgress == i - 10
        invariant shown == old(shown) + ProgressSteps()[..i / 10]
        decreases 110 - i
      {
        uploadProgress := i;
        shown := shown + [i];
        assert ProgressSteps()[..i / 10 + 1] == ProgressSteps()[..i / 10] + [i];
        i := i + 10;
      }
      assert ProgressSteps()[..11] == ProgressSteps();
      isUploading := false;
    }
  }
}
