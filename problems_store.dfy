/**
 * The problems store: the ordered list of uploaded files and the insertion-ordered map from
 * an image URL to the solution the AI produced for it, plus the selection and busy flags.
 */
module ProblemsStore {
  import opened Wrappers
  import opened OrderedMap

  datatype FileStatus = Success | Pending | Failed | Processing

  /** Where an image came from. */
  datatype FileOrigin = Upload | Camera

  /** Stands for the browser `File` object, which the store only carries around. */
  datatype BrowserFile = BrowserFile(handle: nat)

  datatype FileItem = FileItem(
    id: string,
    file: BrowserFile,
    mimeType: string,
    url: string,
    source: FileOrigin,
    status: FileStatus)

  /** `Partial<FileItem>`: `None` is a key the update object does not carry. */
  datatype FileItemPatch = FileItemPatch(
    id: Option<string>,
    file: Option<BrowserFile>,
    mimeType: Option<string>,
    url: Option<string>,
    source: Option<FileOrigin>,
    status: Option<FileStatus>)

  /** A solution's `status`: `"success"`, `"processing"` or `"failed"`. */
  datatype SolutionStatus = Done | Working | Error

  datatype ExplanationStep = ExplanationStep(title: string, content: string)

  datatype ProblemSolution = ProblemSolution(
    problem: string,
    answer: string,
    explanation: string,
    steps: seq<ExplanationStep>)

  /** `streamedOutput` is `None` for both `undefined` and `null`. */
  datatype Solution = Solution(
    imageUrl: string,
    status: SolutionStatus,
    streamedOutput: Option<string>,
    problems: seq<ProblemSolution>,
    aiSourceId: Option<string>)

  /**
   * `Partial<Solution>`. For the optional fields the outer `Option` says whether the key is
   * present and the inner one carries its value, so `{ streamedOutput: null }` is `Some(None)`.
   */
  datatype SolutionPatch = SolutionPatch(
    imageUrl: Option<string>,
    status: Option<SolutionStatus>,
    streamedOutput: Option<Option<string>>,
    problems: Option<seq<ProblemSolution>>,
    aiSourceId: Option<Option<string>>)

  /** `{ ...item, ...updates }`. */
  function PatchItem(item: FileItem, updates: FileItemPatch): (r: FileItem)
    ensures updates.id.Some? ==> r.id == updates.id.value
    ensures updates.id.None? ==> r.id == item.id
    ensures updates.file.Some? ==> r.file == updates.file.value
    ensures updates.file.None? ==> r.file == item.file
    ensures updates.mimeType.Some? ==> r.mimeType == updates.mimeType.value
    ensures updates.mimeType.None? ==> r.mimeType == item.mimeType
    ensures updates.url.Some? ==> r.url == updates.url.value
    ensures updates.url.None? ==> r.url == item.url
    ensures updates.source.Some? ==> r.source == updates.source.value
    ensures updates.source.None? ==> r.source == item.source
    ensures updates.status.Some? ==> r.status == updates.status.value
    ensures updates.status.None? ==> r.status == item.status
  {
    FileItem(
      updates.id.Coalesce(item.id),
      updates.file.Coalesce(item.file),
      updates.mimeType.Coalesce(item.mimeType),
      updates.url.Coalesce(item.url),
      updates.source.Coalesce(item.source),
      updates.status.Coalesce(item.status))
  }

  /** Spreading the same update twice is spreading it once. */
  lemma PatchItemIdempotent(item: FileItem, updates: FileItemPatch)
    ensures PatchItem(PatchItem(item, updates), updates) == PatchItem(item, updates)
  {
  }

  /** `updateItemStatus` is `updateFileItem` with a patch that carries only the status. */
  lemma StatusPatch(item: FileItem, status: FileStatus)
    ensures PatchItem(item, FileItemPatch(None, None, None, None, None, Some(status))) == item.(status := status)
  {
  }

  /**
   * `{ ...currentSolution, ...updates }`, then `streamedOutput = null` when the update
   * reports success.
   */
  function MergeSolution(current: Solution, updates: SolutionPatch): (r: Solution)
    ensures r.imageUrl == updates.imageUrl.Coalesce(current.imageUrl)
    ensures r.status == updates.status.Coalesce(current.status)
    ensures updates.status == Some(Done) ==> r.streamedOutput.None?
    ensures updates.status != Some(Done) ==>
      r.streamedOutput == updates.streamedOutput.Coalesce(current.streamedOutput)
    ensures r.problems == updates.problems.Coalesce(current.problems)
    ensures r.aiSourceId == updates.aiSourceId.Coalesce(current.aiSourceId)
  {
    var merged := Solution(
      updates.imageUrl.Coalesce(current.imageUrl),
      updates.status.Coalesce(current.status),
      updates.streamedOutput.Coalesce(current.streamedOutput),
      updates.problems.Coalesce(current.problems),
      updates.aiSourceId.Coalesce(current.aiSourceId));
    if updates.status == Some(Done) then merged.(streamedOutput := None) else merged
  }

  /** `(streamedOutput || "") + chunk`; every other field is kept. */
  function AppendChunk(current: Solution, chunk: string): (r: Solution)
    ensures r.streamedOutput.Some?
    ensures current.streamedOutput.Some? ==> r.streamedOutput.value == current.streamedOutput.value + chunk
    ensures current.streamedOutput.None? ==> r.streamedOutput.value == chunk
    ensures r.(streamedOutput := current.streamedOutput) == current
  {
    current.(streamedOutput := Some(current.streamedOutput.Coalesce("") + chunk))
  }

  /** Streaming two chunks leaves the same output as streaming their concatenation. */
  lemma AppendChunkTwice(current: Solution, a: string, b: string)
    ensures AppendChunk(AppendChunk(current, a), b) == AppendChunk(current, a + b)
  {
    assert current.streamedOutput.Coalesce("") + a + b == current.streamedOutput.Coalesce("") + (a + b);
  }

  /** Streaming after a clear starts again from the chunk itself. */
  lemma AppendAfterClear(current: Solution, chunk: string)
    ensures AppendChunk(current.(streamedOutput := None), chunk).streamedOutput == Some(chunk)
  {
  }

  /** The problem at one index with a new answer, explanation and steps. */
  function ReviseProblem(problems: seq<ProblemSolution>, index: nat, answer: string,
                         explanation: string, steps: seq<ExplanationStep>): (r: seq<ProblemSolution>)
    requires index < |problems|
    ensures |r| == |problems|
    ensures r[index].problem == problems[index].problem
    ensures r[index].answer == answer && r[index].explanation == explanation && r[index].steps == steps
    ensures forall k :: 0 <= k < |problems| && k != index ==> r[k] == problems[k]
  {
    problems[index := problems[index].(answer := answer, explanation := explanation, steps := steps)]
  }

  class Store {
    var imageItems: seq<FileItem>
    var imageSolutions: JsMap<string, Solution>
    var selectedImage: Option<string>
    var selectedProblem: int
    var isWorking: bool

    /** The solution map is a well-formed ordered map. */
    ghost predicate Valid()
      reads this
    {
      imageSolutions.Valid()
    }

    constructor()
      ensures Valid()
      ensures imageItems == [] && imageSolutions == Empty()
      ensures selectedImage == None && selectedProblem == 0 && !isWorking
    {
      imageItems := [];
      imageSolutions := Empty();
      selectedImage := None;
      selectedProblem := 0;
      isWorking := false;
    }

    /** The old items followed by the new ones. */
    method AddFileItems(newItems: seq<FileItem>)
      modifies this`imageItems
      ensures imageItems == old(imageItems) + newItems
      ensures imageItems[..|old(imageItems)|] == old(imageItems)
      ensures imageItems[|old(imageItems)|..] == newItems
    {
      imageItems := imageItems + newItems;
    }

    /** Every item with this id gets the status; nothing else moves or changes. */
    method UpdateItemStatus(id: string, status: FileStatus)
      modifies this`imageItems
      ensures |imageItems| == |old(imageItems)|
      ensures forall k :: 0 <= k < |imageItems| ==>
        imageItems[k] == if old(imageItems)[k].id == id then old(imageItems)[k].(status := status) else old(imageItems)[k]
    {
      var items := imageItems;
      imageItems := seq(|items|, k requires 0 <= k < |items| =>
        if items[k].id == id then items[k].(status := status) else items[k]);
    }

    /** Every item with this id is merged with the update; nothing else moves or changes. */
    method UpdateFileItem(id: string, updates: FileItemPatch)
      modifies this`imageItems
      ensures |imageItems| == |old(imageItems)|
      ensures forall k :: 0 <= k < |imageItems| ==>
        imageItems[k] == if old(imageItems)[k].id == id then PatchItem(old(imageItems)[k], updates) else old(imageItems)[k]
    {
      var items := imageItems;
      imageItems := seq(|items|, k requires 0 <= k < |items| =>
        if items[k].id == id then PatchItem(items[k], updates) else items[k]);
    }

    /** Drops every item with this id and keeps the others in order. */
    method RemoveImageItem(id: string)
      modifies this`imageItems
      ensures imageItems == ItemsWithoutId(old(imageItems), id)
    {
      imageItems := ItemsWithoutId(imageItems, id);
    }

    /**
     * Rewrites one problem of a stored solution; a missing solution is left alone. The
     * index must name an existing problem.
     */
    method UpdateProblem(imageUrl: string, problemIndex: int, newAnswer: string,
                         newExplanation: string, newSteps: seq<ExplanationStep>)
      requires Valid()
      requires imageUrl in imageSolutions.entries ==>
        0 <= problemIndex < |imageSolutions.entries[imageUrl].problems|
      modifies this`imageSolutions
      ensures Valid()
      ensures imageUrl !in old(imageSolutions.entries) ==> imageSolutions == old(imageSolutions)
      ensures imageUrl in old(imageSolutions.entries) ==>
        var current := old(imageSolutions.entries[imageUrl]);
        imageSolutions.keys == old(imageSolutions.keys) &&
        imageSolutions.entries == old(imageSolutions.entries)[imageUrl :=
          current.(problems := ReviseProblem(current.problems, problemIndex, newAnswer, newExplanation, newSteps))]
    {
      match imageSolutions.Get(imageUrl)
      case None =>
      case Some(current) =>
        var problems := ReviseProblem(current.problems, problemIndex, newAnswer, newExplanation, newSteps);
        assert imageUrl in imageSolutions.keys;
        imageSolutions := imageSolutions.Set(imageUrl, current.(problems := problems));
    }

    method ClearAllItems()
      modifies this`imageItems
      ensures imageItems == []
    {
      imageItems := [];
    }

    /** Adds the solution under its URL unless that URL already has one. */
    method AddSolution(newSolution: Solution)
      requires Valid()
      modifies this`imageSolutions
      ensures Valid()
      ensures newSolution.imageUrl in old(imageSolutions.entries) ==> imageSolutions == old(imageSolutions)
      ensures newSolution.imageUrl !in old(imageSolutions.entries) ==>
        imageSolutions.keys == old(imageSolutions.keys) + [newSolution.imageUrl] &&
        imageSolutions.entries == old(imageSolutions.entries)[newSolution.imageUrl := newSolution]
    {
      if !imageSolutions.Has(newSolution.imageUrl) {
        imageSolutions := imageSolutions.Set(newSolution.imageUrl, newSolution);
      }
    }

    /** Merges the update into an existing solution; a missing URL is left alone. */
    method UpdateSolution(imageUrl: string, updates: SolutionPatch)
      requires Valid()
      modifies this`imageSolutions
      ensures Valid()
      ensures imageUrl !in old(imageSolutions.entries) ==> imageSolutions == old(imageSolutions)
      ensures imageUrl in old(imageSolutions.entries) ==>
        imageSolutions.keys == old(imageSolutions.keys) &&
        imageSolutions.entries == old(imageSolutions.entries)[imageUrl := MergeSolution(old(imageSolutions.entries[imageUrl]), updates)]
    {
      match imageSolutions.Get(imageUrl)
      case None =>
      case Some(current) =>
        assert imageUrl in imageSolutions.keys;
        imageSolutions := imageSolutions.Set(imageUrl, MergeSolution(current, updates));
    }

    /** Appends a chunk to one solution's streamed output; a missing URL is left alone. */
    method AppendStreamedOutput(imageUrl: string, chunk: string)
      requires Valid()
      modifies this`imageSolutions
      ensures Valid()
      ensures imageUrl !in old(imageSolutions.entries) ==> imageSolutions == old(imageSolutions)
      ensures imageUrl in old(imageSolutions.entries) ==>
        imageSolutions.keys == old(imageSolutions.keys) &&
        imageSolutions.entries == old(imageSolutions.entries)[imageUrl := AppendChunk(old(imageSolutions.entries[imageUrl]), chunk)]
    {
      match imageSolutions.Get(imageUrl)
      case None =>
      case Some(current) =>
        assert imageUrl in imageSolutions.keys;
        imageSolutions := imageSolutions.Set(imageUrl, AppendChunk(current, chunk));
    }

    /** Sets one solution's streamed output to `null`; a missing URL is left alone. */
    method ClearStreamedOutput(imageUrl: string)
      requires Valid()
      modifies this`imageSolutions
      ensures Valid()
      ensures imageUrl !in old(imageSolutions.entries) ==> imageSolutions == old(imageSolutions)
      ensures imageUrl in old(imageSolutions.entries) ==>
        imageSolutions.keys == old(imageSolutions.keys) &&
        imageSolutions.entries == old(imageSolutions.entries)[imageUrl := old(imageSolutions.entries[imageUrl]).(streamedOutput := None)]
    {
      match imageSolutions.Get(imageUrl)
      case None =>
      case Some(current) =>
        assert imageUrl in imageSolutions.keys;
        imageSolutions := imageSolutions.Set(imageUrl, current.(streamedOutput := None));
    }

    /** Deletes the URLs one at a time; the remaining entries keep their order. */
    method RemoveSolutionsByUrls(urlsToRemove: set<string>)
      requires Valid()
      modifies this`imageSolutions
      ensures Valid()
      ensures imageSolutions == old(imageSolutions).Without(urlsToRemove)
    {
      var solutions := imageSolutions;
      ghost var start := solutions;
      ghost var removed: set<string> := {};
      var remaining := urlsToRemove;
      assert start.Without({}) == start;
      while remaining != {}
        invariant removed + remaining == urlsToRemove
        invariant solutions == start.Without(removed)
        decreases |remaining|
      {
        var url :| url in remaining;
        WithoutTwice(start, removed, {url});
        solutions := solutions.Delete(url);
        removed := removed + {url};
        remaining := remaining - {url};
      }
      assert start.Valid();
      imageSolutions := solutions;
    }

    method ClearAllSolutions()
      modifies this`imageSolutions
      ensures Valid()
      ensures imageSolutions == Empty()
    {
      imageSolutions := Empty();
    }

    method SetSelectedImage(image: Option<string>)
      modifies this`selectedImage
      ensures selectedImage == image
    {
      selectedImage := image;
    }

    method SetSelectedProblem(index: int)
      modifies this`selectedProblem
      ensures selectedProblem == index
    {
      selectedProblem := index;
    }

    method SetWorking(working: bool)
      modifies this`isWorking
      ensures isWorking == working
    {
      isWorking := working;
    }
  }

  /** `items.filter(item => item.id !== id)`. */
  function ItemsWithoutId(items: seq<FileItem>, id: string): (r: seq<FileItem>)
    ensures |r| <= |items|
    ensures forall x :: x in r <==> x in items && x.id != id
    ensures (forall k :: 0 <= k < |items| ==> items[k].id != id) ==> r == items
  {
    if items == [] then []
    else
      var rest := ItemsWithoutId(items[1..], id);
      assert forall x :: x in items <==> x == items[0] || x in items[1..];
      if items[0].id == id then rest else [items[0]] + rest
  }

  /** Removal keeps the relative order of the items that stay. */
  lemma {:induction false} ItemsWithoutIdAppend(a: seq<FileItem>, b: seq<FileItem>, id: string)
    ensures ItemsWithoutId(a + b, id) == ItemsWithoutId(a, id) + ItemsWithoutId(b, id)
  {
    if a == [] {
      assert a + b == b;
    } else {
      assert (a + b)[0] == a[0];
      assert (a + b)[1..] == a[1..] + b;
      ItemsWithoutIdAppend(a[1..], b, id);
    }
  }

  /** Removing the same id twice removes nothing more. */
  lemma ItemsWithoutIdIdempotent(items: seq<FileItem>, id: string)
    ensures ItemsWithoutId(ItemsWithoutId(items, id), id) == ItemsWithoutId(items, id)
  {
  }
}
