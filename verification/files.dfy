/** The cache directory as an abstract store: one folder per key, each
    holding optional `prompt.txt`, `imgs/<i>.jpg`, `completion.txt` and
    `metadata.json`. JSON and UTF-8 encodings are taken as identity round
    trips; reading a text file translates its newlines (`UniversalNewlines`). */
module Files {
  import opened Wrappers
  import opened Structs
  import opened Text

  /** The files of one cache folder. `imgs == None` means no `imgs` folder. */
  datatype Entry = Entry(
    prompt: Option<string>,
    imgs: Option<map<nat, Image>>,
    completion: Option<string>,
    metadata: Option<Metadata>)

  /** A freshly made folder. */
  const EmptyFolder: Entry := Entry(None, None, None, None)

  /** Folder name to folder; a name is a key exactly when its folder exists. */
  type Store = map<string, Entry>

  /** The folder name `f"{model_id}_{query_id}"`. */
  function FolderName(modelId: string, queryId: string): (name: string)
    ensures |name| == |modelId| + 1 + |queryId|
    ensures name[..|modelId|] == modelId && name[|modelId|] == '_'
    ensures name[|modelId| + 1..] == queryId
  {
    modelId + "_" + queryId
  }

  /** For one model, distinct query ids give distinct folders. */
  lemma FolderNameInjective(modelId: string, a: string, b: string)
    requires FolderName(modelId, a) == FolderName(modelId, b)
    ensures a == b
  {
  }

  /** A lookup hits exactly when the folder holds `prompt.txt`. */
  predicate IsHit(s: Store, key: string) {
    key in s && s[key].prompt.Some?
  }

  /** Every folder other than `key` is as it was. */
  ghost predicate OthersUnchanged(s: Store, s': Store, key: string) {
    forall k :: k != key ==> (k in s <==> k in s') && (k in s ==> s'[k] == s[k])
  }

  /** The folder at `key`, or an empty one if it does not exist yet. */
  function FolderAt(s: Store, key: string): Entry {
    if key in s then s[key] else EmptyFolder
  }

  /** `mkdir(exist_ok=True)` on the folder `key`. */
  function MakeFolder(s: Store, key: string): (s': Store)
    ensures key in s' && s'[key] == FolderAt(s, key)
    ensures OthersUnchanged(s, s', key)
    ensures key in s ==> s' == s
    ensures forall k :: IsHit(s', k) <==> IsHit(s, k)
  {
    s[key := FolderAt(s, key)]
  }

  /** Writing `imgs/0.jpg … imgs/(n-1).jpg` into the image folder `folder` (`None` when it does not exist yet). */
  function SaveImages(folder: Option<map<nat, Image>>, imgs: seq<Image>): (m: map<nat, Image>)
    ensures forall i: nat :: i < |imgs| ==> i in m && m[i] == imgs[i]
    ensures forall i :: i in m && i >= |imgs| ==> folder.Some? && i in folder.value && m[i] == folder.value[i]
    ensures folder.Some? ==> folder.value.Keys <= m.Keys
  {
    folder.GetOr(map[]) + map i: nat | i < |imgs| :: imgs[i]
  }

  /** The writes of a save into the folder `e`: prompt, images when the query
      has any, completion and metadata, each overwriting what was there. */
  function WriteResponse(e: Entry, q: Query, r: Response): (e': Entry)
    ensures e'.prompt == Some(q.prompt)
    ensures e'.completion == Some(r.text) && e'.metadata == Some(r.metadata)
    ensures q.imgs.None? ==> e'.imgs == e.imgs
    ensures q.imgs.Some? ==> e'.imgs.Some?
    ensures q.imgs.Some? ==> forall i: nat :: i < |q.imgs.value| ==>
              i in e'.imgs.value && e'.imgs.value[i] == q.imgs.value[i]
  {
    var imgs := if q.imgs.Some? then Some(SaveImages(e.imgs, q.imgs.value)) else e.imgs;
    Entry(Some(q.prompt), imgs, Some(r.text), Some(r.metadata))
  }

  /** What reading a text file with `open(..., "r")` yields for the contents
      `s`: universal-newline mode turns "\r\n" and a lone "\r" into "\n". */
  function UniversalNewlines(s: string): (r: string)
    ensures '\r' !in r
    ensures '\r' !in s ==> r == s
    ensures |r| <= |s|
    decreases |s|
  {
    if s == [] then []
    else if s[0] == '\r' then "\n" + UniversalNewlines(if |s| > 1 && s[1] == '\n' then s[2..] else s[1..])
    else [s[0]] + UniversalNewlines(s[1..])
  }

  /** Both carriage-return forms read back as one newline. */
  lemma NewlineTranslation()
    ensures UniversalNewlines("a\r\nb") == "a\nb"
    ensures UniversalNewlines("a\rb") == "a\nb"
    ensures UniversalNewlines("a\r") == "a\n"
  {
  }

  /** Newline translation is `s.replace("\r\n", "\n").replace("\r", "\n")`:
      every "\r\n" becomes one "\n", then every remaining "\r" does. */
  lemma {:induction false} UniversalNewlinesIsReplace(s: string)
    ensures UniversalNewlines(s) == ReplaceAll(ReplaceAll(s, "\r\n", "\n"), "\r", "\n")
    decreases |s|
  {
    if s != [] {
      var once := ReplaceAll(s, "\r\n", "\n");
      if s[0] == '\r' && |s| > 1 && s[1] == '\n' {
        assert OccursAt(s, "\r\n", 0);
        UniversalNewlinesIsReplace(s[2..]);
        var tail := ReplaceAll(s[2..], "\r\n", "\n");
        assert once == "\n" + tail;
        assert !OccursAt(once, "\r", 0) && once[1..] == tail;
      } else {
        assert !OccursAt(s, "\r\n", 0);
        UniversalNewlinesIsReplace(s[1..]);
        var tail := ReplaceAll(s[1..], "\r\n", "\n");
        assert once == [s[0]] + tail;
        assert once[1..] == tail;
        assert OccursAt(once, "\r", 0) <==> s[0] == '\r';
      }
    }
  }

  /** The response that reading back a saved `r` gives. */
  function ReadBack(r: Response): Response {
    Response(UniversalNewlines(r.text), r.metadata)
  }

  /** Reading `completion.txt` and `metadata.json` back into a response; a
      missing file raises `FileNotFoundError`, completion first. */
  function ReadResponse(e: Entry): (r: Result<Response, Error>)
    ensures r.Success? <==> e.completion.Some? && e.metadata.Some?
    ensures r.Success? ==> r.value.text == UniversalNewlines(e.completion.value) && r.value.metadata == e.metadata.value
    ensures r.Failure? ==> r.error.FileNotFoundError?
    ensures e.completion.None? ==> r == Failure(FileNotFoundError("completion.txt"))
  {
    if e.completion.None? then Failure(FileNotFoundError("completion.txt"))
    else if e.metadata.None? then Failure(FileNotFoundError("metadata.json"))
    else Success(Response(UniversalNewlines(e.completion.value), e.metadata.value))
  }

  /** Store-then-load round trip on one folder: the response comes back with
      its newlines translated, and unchanged when its text has no "\r". */
  lemma WriteThenRead(e: Entry, q: Query, r: Response)
    ensures ReadResponse(WriteResponse(e, q, r)) == Success(ReadBack(r))
    ensures '\r' !in r.text ==> ReadResponse(WriteResponse(e, q, r)) == Success(r)
  {
  }

  /** Every write overwrites, so writing twice is writing once. */
  lemma WriteIdempotent(e: Entry, q: Query, r: Response)
    ensures WriteResponse(WriteResponse(e, q, r), q, r) == WriteResponse(e, q, r)
  {
    if q.imgs.Some? {
      var once := SaveImages(e.imgs, q.imgs.value);
      var twice := SaveImages(Some(once), q.imgs.value);
      assert twice.Keys == once.Keys;
      assert twice == once;
    }
  }
}
