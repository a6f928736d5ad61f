/**
 * The "add product" form, which exists twice (app/admin/products/new and
 * src/app/admin/products/new): two parallel lists of chosen files and their
 * previews, and a save that validates, uploads the files in order, stops at the
 * first failed upload, inserts the product and resets the form.
 */
module ProductForm {
  import opened Wrappers
  import opened Text
  import opened Seqs

  /** A chosen file; storage, object URLs and file naming are not modelled. */
  datatype FileRef = FileRef(name: string)

  /** The row the form inserts into `products`; `price` is `Number(price)`, `None` standing for NaN. */
  datatype NewProduct = NewProduct(
    name: string,
    description: string,
    price: Option<int>,
    condition: string,
    imageUrl: string,
    images: seq<string>,
    categoryId: int,
    isActive: bool)

  /**
   * The form's inputs: the text fields, the category (`None` for the empty choice
   * `""`), and the chosen files with their preview URLs, index by index.
   */
  datatype Form = Form(
    name: string,
    description: string,
    price: string,
    condition: string,
    categoryId: Option<int>,
    images: seq<FileRef>,
    previews: seq<string>)

  /** The initial form, and the one a successful save resets to. */
  const Blank := Form("", "", "", "new", None, [], [])

  // ---------------------------------------------------------------- the two lists

  /** `prev.filter((_, i) => i !== index)`. */
  function WithoutIndex<T>(s: seq<T>, index: int): (r: seq<T>)
    ensures 0 <= index < |s| ==> |r| == |s| - 1
    ensures !(0 <= index < |s|) ==> r == s
    ensures forall i :: 0 <= i < |r| ==> SourceIndex(index, |s|, i) < |s| && r[i] == s[SourceIndex(index, |s|, i)]
  {
    if 0 <= index < |s| then s[..index] + s[index + 1..] else s
  }

  /** Where the element at `i` of the shortened list was before `index` was removed. */
  function SourceIndex(index: int, n: nat, i: nat): nat {
    if 0 <= index < n && i >= index then i + 1 else i
  }

  /** Removing one entry keeps every other entry: the removed one is the only one missing. */
  lemma WithoutIndexKeepsOthers<T>(s: seq<T>, index: int, j: int)
    requires 0 <= j < |s| && j != index
    ensures s[j] in WithoutIndex(s, index)
  {
    var r := WithoutIndex(s, index);
    var i := if 0 <= index < |s| && j > index then j - 1 else j;
    assert r[i] == s[j];
  }

  /** `handleSelectImages`: one preview URL per file is appended beside it; no files, no change. */
  function Selected(form: Form, files: seq<FileRef>, previewUrls: seq<string>): (f: Form)
    requires |previewUrls| == |files|
    ensures |form.images| == |form.previews| ==> |f.images| == |f.previews|
    ensures |f.images| == |form.images| + |files| && f.images[..|form.images|] == form.images
    ensures forall k :: 0 <= k < |files| ==> f.images[|form.images| + k] == files[k]
    ensures f.images == form.images + files && f.previews == form.previews + previewUrls
    ensures |files| == 0 ==> f == form
    ensures f.(images := form.images, previews := form.previews) == form
  {
    if |files| == 0 then form
    else form.(images := form.images + files, previews := form.previews + previewUrls)
  }

  /** `removeImage`: the same index goes from both lists, so each file keeps its own preview. */
  function Removed(form: Form, index: int): (f: Form)
    ensures |form.images| == |form.previews| ==>
      |f.images| == |f.previews| &&
      forall i :: 0 <= i < |f.images| ==>
        var j := SourceIndex(index, |form.images|, i);
        j < |form.images| && f.images[i] == form.images[j] && f.previews[i] == form.previews[j]
    ensures f.(images := form.images, previews := form.previews) == form
  {
    form.(images := WithoutIndex(form.images, index), previews := WithoutIndex(form.previews, index))
  }

  // ---------------------------------------------------------------- saving

  /** `!name || !price || !categoryId || images.length === 0` rejects the form. */
  predicate FormComplete(form: Form) {
    Truthy(form.name) && Truthy(form.price) && form.categoryId.Some? && form.categoryId.value != 0 && |form.images| > 0
  }

  /** Upload `k` returns `outcome(k)`: the public URL, or `None` for an error. */
  predicate AllUploaded(outcome: nat -> Option<string>, n: nat) {
    forall k :: 0 <= k < n ==> outcome(k).Some?
  }

  /** The index of the first failed upload among the first `n`, or `n` when none fails. */
  function FirstFailure(outcome: nat -> Option<string>, n: nat): (f: nat)
    ensures f <= n && AllUploaded(outcome, f)
    ensures f < n ==> outcome(f).None?
    ensures f == n <==> AllUploaded(outcome, n)
  {
    if n == 0 then 0
    else
      var f := FirstFailure(outcome, n - 1);
      if f < n - 1 then f
      else if outcome(n - 1).None? then n - 1
      else n
  }

  /** `uploadedUrls` after the first `n` uploads succeeded. */
  function Urls(outcome: nat -> Option<string>, n: nat): (urls: seq<string>)
    requires AllUploaded(outcome, n)
    ensures |urls| == n
    ensures forall k :: 0 <= k < n ==> urls[k] == outcome(k).value
  {
    if n == 0 then [] else Urls(outcome, n - 1) + [outcome(n - 1).value]
  }

  /**
   * The upload loop over `images`: stops at the first error. Returns the URLs
   * collected, how many uploads were attempted, and whether all succeeded.
   */
  method UploadAll(images: seq<FileRef>, outcome: nat -> Option<string>) returns (urls: seq<string>, attempted: nat, ok: bool)
    ensures ok <==> AllUploaded(outcome, |images|)
    ensures attempted == if ok then |images| else FirstFailure(outcome, |images|) + 1
    ensures urls == Urls(outcome, FirstFailure(outcome, |images|))
  {
    urls := [];
    var k := 0;
    while k < |images|
      invariant 0 <= k <= |images| && AllUploaded(outcome, k)
      invariant urls == Urls(outcome, k)
    {
      var result := outcome(k);
      if result.None? {
        return urls, k + 1, false;
      }
      urls := urls + [result.value];
      k := k + 1;
    }
    return urls, k, true;
  }

  /** The inserted row: the first URL is the main image, all URLs the gallery, and the product is active. */
  function NewProductRecord(form: Form, urls: seq<string>): (p: NewProduct)
    requires |urls| > 0 && form.categoryId.Some?
    ensures p.imageUrl == urls[0] && p.images == urls && p.isActive
    ensures p.price == ParseNumber(form.price) && p.condition == form.condition && p.categoryId == form.categoryId.value
    ensures p.name == form.name && p.description == form.description
  {
    NewProduct(form.name, form.description, ParseNumber(form.price), form.condition, urls[0], urls, form.categoryId.value, true)
  }

  /** The alerts of one page: the two form pages word the first two differently. */
  datatype Messages = Messages(incomplete: string, uploadFailed: string, saveFailed: string, saved: string)

  datatype SaveOutcome = Incomplete | UploadFailed | SaveFailed | Saved

  /** What `handleSave` does: its outcome, the files it sent to storage, the rows it inserted, its alert and the form after it. */
  datatype SaveStep = SaveStep(outcome: SaveOutcome, uploads: seq<FileRef>, inserted: seq<NewProduct>, alert: string, form: Form)

  /** `handleSave`, given each upload's result and whether the insert succeeds. */
  function Save(form: Form, outcome: nat -> Option<string>, insertOk: bool, msgs: Messages): SaveStep {
    if !FormComplete(form) then SaveStep(Incomplete, [], [], msgs.incomplete, form)
    else
      var f := FirstFailure(outcome, |form.images|);
      if f < |form.images| then SaveStep(UploadFailed, form.images[..f + 1], [], msgs.uploadFailed, form)
      else if !insertOk then SaveStep(SaveFailed, form.images, [], msgs.saveFailed, form)
      else SaveStep(Saved, form.images, [NewProductRecord(form, Urls(outcome, f))], msgs.saved, Blank)
  }

  /**
   * What a save promises: an incomplete form uploads nothing; otherwise the files are
   * uploaded in order up to and including the first failure, the row is inserted only
   * when every upload succeeded, its gallery is the uploaded URLs in the files' order,
   * and only a successful insert resets the form.
   */
  lemma SaveOutcomes(form: Form, outcome: nat -> Option<string>, insertOk: bool, msgs: Messages)
    ensures var s := Save(form, outcome, insertOk, msgs);
      (s.outcome == Incomplete <==> !FormComplete(form)) &&
      (s.outcome == UploadFailed <==> FormComplete(form) && exists k :: 0 <= k < |form.images| && outcome(k).None?) &&
      (s.outcome == Saved <==> FormComplete(form) && AllUploaded(outcome, |form.images|) && insertOk)
    ensures var s := Save(form, outcome, insertOk, msgs);
      (s.outcome == Incomplete ==> s.uploads == [] && s.alert == msgs.incomplete) &&
      (s.outcome == SaveFailed ==> s.uploads == form.images && s.alert == msgs.saveFailed) &&
      (s.outcome != Saved ==> s.inserted == [] && s.form == form)
    ensures var s := Save(form, outcome, insertOk, msgs);
      s.outcome == UploadFailed ==>
        s.alert == msgs.uploadFailed &&
        exists f :: 0 <= f < |form.images| && outcome(f).None? && s.uploads == form.images[..f + 1] && AllUploaded(outcome, f)
    ensures var s := Save(form, outcome, insertOk, msgs);
      s.outcome == Saved ==>
        s.form == Blank && s.alert == msgs.saved && s.uploads == form.images &&
        |s.inserted| == 1 && s.inserted[0].imageUrl == outcome(0).value &&
        |s.inserted[0].images| == |form.images| &&
        (forall k :: 0 <= k < |form.images| ==> s.inserted[0].images[k] == outcome(k).value)
  {
    var f := FirstFailure(outcome, |form.images|);
    if FormComplete(form) && f < |form.images| {
      assert outcome(f).None?;
    }
  }

  /** A save that failed leaves the form as it was, so saving again retries every upload from the first file. */
  lemma RetryUploadsEverything(form: Form, outcome: nat -> Option<string>, outcome': nat -> Option<string>, insertOk: bool, msgs: Messages)
    requires Save(form, outcome, insertOk, msgs).outcome in {UploadFailed, SaveFailed}
    ensures var again := Save(Save(form, outcome, insertOk, msgs).form, outcome', insertOk, msgs);
      again.outcome != Incomplete && again.uploads[0] == form.images[0]
  {
  }

  /** After a successful save the blank form is rejected until it is filled in again. */
  lemma SavedFormIsIncomplete(form: Form, outcome: nat -> Option<string>, outcome': nat -> Option<string>, insertOk: bool, msgs: Messages)
    requires Save(form, outcome, true, msgs).outcome == Saved
    ensures Save(Save(form, outcome, true, msgs).form, outcome', insertOk, msgs).outcome == Incomplete
  {
  }

  /** `i === 0 && <div>MAIN</div>`: the label over preview tile `i`. */
  function PreviewLabel(i: nat): Option<string> {
    if i == 0 then Some("MAIN") else None
  }

  /**
   * The tile labelled MAIN is the one whose file becomes the product's main image:
   * after a save, `image_url` is the URL uploaded for the file under that tile.
   */
  lemma MainTileIsMainImage(form: Form, outcome: nat -> Option<string>, msgs: Messages, i: nat)
    requires |form.images| == |form.previews|
    requires Save(form, outcome, true, msgs).outcome == Saved
    requires i < |form.previews| && PreviewLabel(i) == Some("MAIN")
    ensures outcome(i).Some? && Save(form, outcome, true, msgs).inserted[0].imageUrl == outcome(i).value
  {
    SaveOutcomes(form, outcome, true, msgs);
  }

  // ---------------------------------------------------------------- app/admin/products/new

  /** The add-product page under `app/`. */
  class AppNewProductPage {
    var form: Form
    var loading: bool
    /** The files sent to storage so far. */
    var uploaded: seq<FileRef>
    /** The rows inserted into `products` so far. */
    var products: seq<NewProduct>
    var alerts: seq<string>

    /** Each chosen file has its preview at the same index. */
    predicate Valid()
      reads this
    {
      |form.images| == |form.previews|
    }

    constructor ()
      ensures Valid()
      ensures form == Blank && !loading && uploaded == [] && products == [] && alerts == []
    {
      form, loading, uploaded, products, alerts := Blank, false, [], [], [];
    }

    /** The alert texts of this page. */
    function Alerts(): Messages {
      Messages("Fill all fields and upload images", "Upload failed", "Save failed", "Product saved")
    }

    /** `handleSelectImages`. */
    method SelectImages(files: seq<FileRef>, previewUrls: seq<string>)
      requires Valid() && |previewUrls| == |files|
      modifies this
      ensures Valid()
      ensures form == Selected(old(form), files, previewUrls)
      ensures loading == old(loading) && uploaded == old(uploaded) && products == old(products) && alerts == old(alerts)
    {
      if |files| == 0 {
        return;
      }
      form := form.(images := form.images + files, previews := form.previews + previewUrls);
    }

    /** `removeImage`. */
    method RemoveImage(index: int)
      requires Valid()
      modifies this
      ensures Valid()
      ensures form == Removed(old(form), index)
      ensures loading == old(loading) && uploaded == old(uploaded) && products == old(products) && alerts == old(alerts)
    {
      form := form.(images := WithoutIndex(form.images, index), previews := WithoutIndex(form.previews, index));
    }

    /** `handleSave`: validate, upload file by file, insert the row, then reset the form or keep it. */
    method HandleSave(outcome: nat -> Option<string>, insertOk: bool) returns (result: SaveOutcome)
      requires Valid()
      modifies this
      ensures Valid()
      ensures var s := Save(old(form), outcome, insertOk, Alerts());
        result == s.outcome && form == s.form && alerts == old(alerts) + [s.alert] &&
        uploaded == old(uploaded) + s.uploads && products == old(products) + s.inserted
      ensures loading == (old(loading) && result == Incomplete)
    {
      var msgs, current := Alerts(), form;
      if !FormComplete(current) {
        alerts := alerts + [msgs.incomplete];
        return Incomplete;
      }
      loading := true;
      var urls, attempted, ok := UploadAll(current.images, outcome);
      var step;
      if !ok {
        step := SaveStep(UploadFailed, current.images[..attempted], [], msgs.uploadFailed, current);
      } else if insertOk {
        assert current.images[..attempted] == current.images;
        step := SaveStep(Saved, current.images, [NewProductRecord(current, urls)], msgs.saved, Blank);
      } else {
        step := SaveStep(SaveFailed, current.images, [], msgs.saveFailed, current);
      }
      assert step == Save(current, outcome, insertOk, msgs);
      Finish(step);
      result := step.outcome;
    }

    /** The end of a save that got past validation: uploads and insert recorded, alert shown, loading cleared. */
    method Finish(step: SaveStep)
      modifies this
      ensures form == step.form && alerts == old(alerts) + [step.alert] && !loading
      ensures uploaded == old(uploaded) + step.uploads && products == old(products) + step.inserted
    {
      uploaded := uploaded + step.uploads;
      products := products + step.inserted;
      alerts := alerts + [step.alert];
      form := step.form;
      loading := false;
    }
  }

  // ---------------------------------------------------------------- src/app/admin/products/new

  /** The duplicate add-product page under `src/app/`, with its own alert texts. */
  class SrcNewProductPage {
    var form: Form
    var loading: bool
    /** The files sent to storage so far. */
    var uploaded: seq<FileRef>
    /** The rows inserted into `products` so far. */
    var products: seq<NewProduct>
    var alerts: seq<string>

    /** Each chosen file has its preview at the same index. */
    predicate Valid()
      reads this
    {
      |form.images| == |form.previews|
    }

    constructor ()
      ensures Valid()
      ensures form == Blank && !loading && uploaded == [] && products == [] && alerts == []
    {
      form, loading, uploaded, products, alerts := Blank, false, [], [], [];
    }

    /** The alert texts of this page. */
    function Alerts(): Messages {
      Messages("Please fill all fields and upload images", "Image upload failed", "Save failed", "Product saved")
    }

    /** `handleSelectImages`. */
    method SelectImages(files: seq<FileRef>, previewUrls: seq<string>)
      requires Valid() && |previewUrls| == |files|
      modifies this
      ensures Valid()
      ensures form == Selected(old(form), files, previewUrls)
      ensures loading == old(loading) && uploaded == old(uploaded) && products == old(products) && alerts == old(alerts)
    {
      if |files| == 0 {
        return;
      }
      form := form.(images := form.images + files, previews := form.previews + previewUrls);
    }

    /** `removeImage`. */
    method RemoveImage(index: int)
      requires Valid()
      modifies this
      ensures Valid()
      ensures form == Removed(old(form), index)
      ensures loading == old(loading) && uploaded == old(uploaded) && products == old(products) && alerts == old(alerts)
    {
      form := form.(images := WithoutIndex(form.images, index), previews := WithoutIndex(form.previews, index));
    }

    /** `handleSave`: validate, upload file by file, insert the row, then reset the form or keep it. */
    method HandleSave(outcome: nat -> Option<string>, insertOk: bool) returns (result: SaveOutcome)
      requires Valid()
      modifies this
      ensures Valid()
      ensures var s := Save(old(form), outcome, insertOk, Alerts());
        result == s.outcome && form == s.form && alerts == old(alerts) + [s.alert] &&
        uploaded == old(uploaded) + s.uploads && products == old(products) + s.inserted
      ensures loading == (old(loading) && result == Incomplete)
    {
      var msgs, current := Alerts(), form;
      if !FormComplete(current) {
        alerts := alerts + [msgs.incomplete];
        return Incomplete;
      }
      loading := true;
      var urls, attempted, ok := UploadAll(current.images, outcome);
      var step;
      if !ok {
        step := SaveStep(UploadFailed, current.images[..attempted], [], msgs.uploadFailed, current);
      } else if insertOk {
        assert current.images[..attempted] == current.images;
        step := SaveStep(Saved, current.images, [NewProductRecord(current, urls)], msgs.saved, Blank);
      } else {
        step := SaveStep(SaveFailed, current.images, [], msgs.saveFailed, current);
      }
      assert step == Save(current, outcome, insertOk, msgs);
      Finish(step);
      result := step.outcome;
    }

    /** The end of a save that got past validation: uploads and insert recorded, alert shown, loading cleared. */
    method Finish(step: SaveStep)
      modifies this
      ensures form == step.form && alerts == old(alerts) + [step.alert] && !loading
      ensures uploaded == old(uploaded) + step.uploads && products == old(products) + step.inserted
    {
      uploaded := uploaded + step.uploads;
      products := products + step.inserted;
      alerts := alerts + [step.alert];
      form := step.form;
      loading := false;
    }
  }
}
