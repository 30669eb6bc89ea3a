/**
 * The browser's FormData object as the views use it: an ordered list of
 * (key, part) entries filled with `append` and `set`. The model keeps the
 * entry list as a sequence and reads it back with `getAll`.
 */
module FormData {
  import opened JsValues

  /** What one multipart part carries: a field value (sent in its string form) or one file. */
  datatype Part = Text(v: Value) | Blob(a: Attachment)

  datatype Entry = Entry(key: string, part: Part)

  /** The entry list of a FormData object, in order. */
  type Form = seq<Entry>

  /** `formData.getAll(key)`: the parts stored under key, in entry order. */
  function GetAll(fd: Form, key: string): (r: seq<Part>)
    ensures |r| <= |fd|
  {
    if fd == [] then []
    else (if fd[0].key == key then [fd[0].part] else []) + GetAll(fd[1..], key)
  }

  /** Reading a key back from two lists put together reads each list in turn. */
  lemma {:induction false} GetAllConcat(a: Form, b: Form)
    ensures forall key :: GetAll(a + b, key) == GetAll(a, key) + GetAll(b, key)
  {
    if a == [] {
      assert a + b == b;
    } else {
      assert (a + b)[1..] == a[1..] + b;
      GetAllConcat(a[1..], b);
    }
  }

  /** `formData.append(key, part)`: one more entry at the end, whatever the key already holds. */
  function Append(fd: Form, key: string, p: Part): (r: Form)
    ensures GetAll(r, key) == GetAll(fd, key) + [p]
    ensures forall k :: k != key ==> GetAll(r, k) == GetAll(fd, k)
    ensures |r| == |fd| + 1 && r[..|fd|] == fd
  {
    GetAllConcat(fd, [Entry(key, p)]);
    assert GetAll([Entry(key, p)], key) == [p];
    fd + [Entry(key, p)]
  }

  /** The list with every entry under key deleted. */
  function Without(fd: Form, key: string): (r: Form)
    ensures GetAll(r, key) == []
    ensures forall k :: k != key ==> GetAll(r, k) == GetAll(fd, k)
  {
    if fd == [] then []
    else if fd[0].key == key then Without(fd[1..], key)
    else
      var rest := Without(fd[1..], key);
      assert ([fd[0]] + rest)[1..] == rest;
      [fd[0]] + rest
  }

  /**
   * `formData.set(key, part)`: the first entry under key takes the new part
   * and every later entry under key is deleted; when the key has no entry,
   * the new one is appended. Either way the key ends up holding exactly the
   * new part and every other key keeps what it held.
   */
  function Set(fd: Form, key: string, p: Part): (r: Form)
    ensures GetAll(r, key) == [p]
    ensures forall k :: k != key ==> GetAll(r, k) == GetAll(fd, k)
    ensures GetAll(fd, key) == [] ==> r == fd + [Entry(key, p)]
  {
    if fd == [] then [Entry(key, p)]
    else if fd[0].key == key then
      var rest := Without(fd[1..], key);
      assert ([Entry(key, p)] + rest)[1..] == rest;
      [Entry(key, p)] + rest
    else
      var rest := Set(fd[1..], key, p);
      assert ([fd[0]] + rest)[1..] == rest;
      [fd[0]] + rest
  }

  /** One part per file, in file order. */
  function Blobs(items: seq<Attachment>): (r: seq<Part>)
    ensures |r| == |items|
    ensures forall i :: 0 <= i < |items| ==> r[i] == Blob(items[i])
  {
    seq(|items|, i requires 0 <= i < |items| => Blob(items[i]))
  }

  /** The entries that appending each file in turn under key adds. */
  function FileEntries(key: string, items: seq<Attachment>): (r: Form)
    ensures |r| == |items|
    ensures GetAll(r, key) == Blobs(items)
    ensures forall k :: k != key ==> GetAll(r, k) == []
  {
    if items == [] then []
    else
      var n := |items| - 1;
      assert Blobs(items) == Blobs(items[..n]) + [Blob(items[n])];
      Append(FileEntries(key, items[..n]), key, Blob(items[n]))
  }

  /** k copies of one part. */
  function Copies(x: Part, k: nat): (r: seq<Part>)
    ensures |r| == k && forall i :: 0 <= i < k ==> r[i] == x
  {
    seq(k, _ => x)
  }

  /** k copies of a list of parts, one after another. */
  function Repeat(s: seq<Part>, k: nat): seq<Part> {
    if k == 0 then [] else Repeat(s, k - 1) + s
  }
}
