/** The admin media library: search by name, delete by id, and add an item
    from a name and a URL. */
module MediaManagement {
  import Seqs
  import Text

  /** `kind` is the source's `type` field. */
  datatype MediaItem = MediaItem(id: string, name: string, url: string, kind: string, size: string, uploadedOn: string)

  const InitialMedia: seq<MediaItem> := [
    MediaItem("1", "cow-milk.jpg", "/assets/cow-milk.jpg", "image", "250KB", "2024-01-15"),
    MediaItem("2", "buffalo-milk.jpg", "/assets/buffalo-milk.jpg", "image", "320KB", "2024-01-20"),
    MediaItem("3", "banner-1.jpg", "/assets/banner-1.jpg", "image", "450KB", "2024-02-05"),
    MediaItem("4", "logo.png", "/assets/logo.png", "image", "120KB", "2023-12-10")
  ]

  predicate NameMatches(item: MediaItem, searchTerm: string) {
    Text.Includes(Text.Lower(item.name), Text.Lower(searchTerm))
  }

  function Matching(searchTerm: string): MediaItem -> bool {
    (item: MediaItem) => NameMatches(item, searchTerm)
  }

  /** `filteredMedia`. */
  function FilteredMedia(media: seq<MediaItem>, searchTerm: string): (r: seq<MediaItem>)
    ensures forall i :: 0 <= i < |r| ==> r[i] in media && NameMatches(r[i], searchTerm)
    ensures forall i :: (0 <= i < |media| && NameMatches(media[i], searchTerm)) ==> media[i] in r
    ensures forall x :: multiset(r)[x] == if NameMatches(x, searchTerm) then multiset(media)[x] else 0
  {
    Seqs.FilterMultiset(media, Matching(searchTerm));
    Seqs.Filter(media, Matching(searchTerm))
  }

  lemma FilteredMediaKeepsOrder(media: seq<MediaItem>, searchTerm: string)
    ensures Seqs.SubsequenceOf(FilteredMedia(media, searchTerm), media)
  {
    Seqs.FilterIsSubsequence(media, Matching(searchTerm));
  }

  lemma EmptySearchShowsAll(media: seq<MediaItem>)
    ensures FilteredMedia(media, "") == media
  {
    forall item | item in media ensures Matching("")(item) {
      Text.IncludesEmpty(Text.Lower(item.name));
    }
    Seqs.FilterKeepsAll(media, Matching(""));
  }

  lemma MediaSearchIgnoresCase(media: seq<MediaItem>, t1: string, t2: string)
    requires Text.Lower(t1) == Text.Lower(t2)
    ensures FilteredMedia(media, t1) == FilteredMedia(media, t2)
  {
    Seqs.FilterCongruent(media, Matching(t1), Matching(t2));
  }

  function NotId(id: string): MediaItem -> bool {
    (item: MediaItem) => item.id != id
  }

  /** `handleDeleteMedia`: exactly the items with `id` go. */
  function WithoutMedia(media: seq<MediaItem>, id: string): (r: seq<MediaItem>)
    ensures forall i :: 0 <= i < |r| ==> r[i] in media && r[i].id != id
    ensures forall i :: (0 <= i < |media| && media[i].id != id) ==> media[i] in r
    ensures forall x :: multiset(r)[x] == if x.id != id then multiset(media)[x] else 0
  {
    Seqs.FilterMultiset(media, NotId(id));
    Seqs.Filter(media, NotId(id))
  }

  lemma DeleteKeepsOrder(media: seq<MediaItem>, id: string)
    ensures Seqs.SubsequenceOf(WithoutMedia(media, id), media)
    ensures WithoutMedia(WithoutMedia(media, id), id) == WithoutMedia(media, id)
  {
    Seqs.FilterIsSubsequence(media, NotId(id));
    Seqs.FilterIdempotent(media, NotId(id));
  }

  /** The item an upload adds; its id and date come from the clock. */
  function UploadedItem(id: string, name: string, url: string, today: string): MediaItem {
    MediaItem(id, name, url, "image", "Unknown", today)
  }

  class MediaLibrary {
    var media: seq<MediaItem>
    var searchTerm: string
    var uploadName: string
    var uploadUrl: string

    constructor ()
      ensures media == InitialMedia && searchTerm == "" && uploadName == "" && uploadUrl == ""
    {
      media := InitialMedia;
      searchTerm, uploadName, uploadUrl := "", "", "";
    }

    /** What the library tab lists: the library in its order, all of it
        while the search box is empty. */
    function Listed(): (r: seq<MediaItem>)
      reads this
      ensures Seqs.SubsequenceOf(r, media)
      ensures searchTerm == "" ==> r == media
    {
      FilteredMediaKeepsOrder(media, searchTerm);
      EmptySearchShowsAll(media);
      FilteredMedia(media, searchTerm)
    }

    method SetSearchTerm(t: string)
      modifies this`searchTerm
      ensures searchTerm == t
    {
      searchTerm := t;
    }

    method SetUploadName(n: string)
      modifies this`uploadName
      ensures uploadName == n
    {
      uploadName := n;
    }

    method SetUploadUrl(u: string)
      modifies this`uploadUrl
      ensures uploadUrl == u
    {
      uploadUrl := u;
    }

    method DeleteMedia(id: string)
      modifies this`media
      ensures media == WithoutMedia(old(media), id)
    {
      media := WithoutMedia(media, id);
    }

    /** `handleUploadMedia`: refused when the name or the URL is empty,
        leaving everything as it was; otherwise one item is appended and
        both fields are cleared. `newId` and `today` stand for the clock. */
    method UploadMedia(newId: string, today: string) returns (ok: bool)
      modifies this`media, this`uploadName, this`uploadUrl
      ensures ok <==> old(uploadName) != "" && old(uploadUrl) != ""
      ensures !ok ==> media == old(media) && uploadName == old(uploadName) && uploadUrl == old(uploadUrl)
      ensures ok ==> media == old(media) + [UploadedItem(newId, old(uploadName), old(uploadUrl), today)]
      ensures ok ==> uploadName == "" && uploadUrl == ""
    {
      if uploadName == "" || uploadUrl == "" {
        return false;
      }
      media := media + [UploadedItem(newId, uploadName, uploadUrl, today)];
      uploadName := "";
      uploadUrl := "";
      ok := true;
    }
  }
}
