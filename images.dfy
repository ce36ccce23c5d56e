/** How product image references become URLs: absolute "http" references are
    kept, anything else is a file name under the server's upload directory. */
module Images {
  import opened Options
  import opened Text

  const UploadsPrefix := "/uploads/products/"

  /** `path.startsWith("http") ? path : "/uploads/products/" + path` */
  function Resolve(path: string): (r: string)
    ensures StartsWith(path, "http") ==> r == path
    ensures !StartsWith(path, "http") ==> r == UploadsPrefix + path
    ensures Resolved(r)
  {
    if StartsWith(path, "http") then path
    else
      var r := UploadsPrefix + path;
      assert r[..|UploadsPrefix|] == UploadsPrefix;
      r
  }

  /** An absolute URL or a path under the upload directory. */
  predicate Resolved(r: string) {
    StartsWith(r, "http") || StartsWith(r, UploadsPrefix)
  }

  /** One entry of a product's `images` array: a string, an object carrying a
      `url` field (None when the field is missing), or any other value. */
  datatype Entry = Path(path: string) | Record(url: Option<string>) | Other

  /** What the first entry of `images` contributes: its string, or the truthy
      `url` of an object, resolved; None when neither applies or there is no
      entry. */
  function FirstEntry(images: seq<Entry>): (r: Option<string>)
    ensures images == [] ==> r == None
    ensures images != [] && images[0].Path? ==> r == Some(Resolve(images[0].path))
    ensures images != [] && images[0].Record? ==>
              r == if Filled(images[0].url) then Some(Resolve(images[0].url.value)) else None
    ensures images != [] && images[0].Other? ==> r == None
    ensures r.Some? ==> Resolved(r.value)
  {
    if images == [] then None
    else match images[0]
      case Path(p) => Some(Resolve(p))
      case Record(url) => if Filled(url) then Some(Resolve(url.value)) else None
      case Other => None
  }
}
