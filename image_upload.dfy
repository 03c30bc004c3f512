/** The drop zone of `src/components/ImageUpload.tsx`: rejected files are reported one
    message per line and block the whole drop; otherwise the accepted files get
    previews and are handed to the parent. */
module ImageUpload {
  import opened Js
  import opened Web

  /** 10 MB */
  const MaxFileSize: nat := 10 * 1024 * 1024

  const TooLarge := " is too large. Maximum size is 10MB."
  const NotAnImage := " is not a valid image file."

  /** The message for one rejected file. */
  function RejectionMessage(file: File): (m: string)
    ensures m == file.name + TooLarge <==> file.size > MaxFileSize
    ensures m == file.name + NotAnImage <==> file.size <= MaxFileSize
  {
    if file.size > MaxFileSize then
      assert file.name + NotAnImage != file.name + TooLarge by {
        assert (file.name + NotAnImage)[|file.name| + 4] != (file.name + TooLarge)[|file.name| + 4];
      }
      file.name + TooLarge
    else
      assert file.name + TooLarge != file.name + NotAnImage by {
        assert (file.name + NotAnImage)[|file.name| + 4] != (file.name + TooLarge)[|file.name| + 4];
      }
      file.name + NotAnImage
  }

  /** `rejected.map(...)`: one message per rejected file, in rejection order. */
  function Messages(rejected: seq<File>): (ms: seq<string>)
    ensures |ms| == |rejected|
    ensures forall i :: 0 <= i < |rejected| ==> ms[i] == RejectionMessage(rejected[i])
  {
    seq(|rejected|, i requires 0 <= i < |rejected| => RejectionMessage(rejected[i]))
  }

  /** `parts.join(sep)` */
  function Join(parts: seq<string>, sep: char): string
    decreases |parts|
  {
    if |parts| == 0 then ""
    else if |parts| == 1 then parts[0]
    else parts[0] + [sep] + Join(parts[1..], sep)
  }

  /** `s.split(sep)`: the pieces between separators; the empty string gives one empty
      piece. */
  function Split(s: string, sep: char): (parts: seq<string>)
    ensures |parts| > 0
    decreases |s|
  {
    if s == [] then [""]
    else
      var rest := Split(s[1..], sep);
      if s[0] == sep then [""] + rest else [[s[0]] + rest[0]] + rest[1..]
  }

  /** A piece without separators splits into itself. */
  lemma {:induction false} SplitPlain(s: string, sep: char)
    requires sep !in s
    ensures Split(s, sep) == [s]
    decreases |s|
  {
    if s != [] {
      SplitPlain(s[1..], sep);
      assert [s[0]] + s[1..] == s;
    }
  }

  /** A piece without separators, then a separator, splits off as the first piece. */
  lemma {:induction false} SplitFirst(p: string, sep: char, rest: string)
    requires sep !in p
    ensures Split(p + [sep] + rest, sep) == [p] + Split(rest, sep)
    decreases |p|
  {
    if p == [] {
      assert p + [sep] + rest == [sep] + rest;
      assert ([sep] + rest)[1..] == rest;
    } else {
      var s := p + [sep] + rest;
      assert s[1..] == p[1..] + [sep] + rest;
      SplitFirst(p[1..], sep, rest);
      assert [p[0]] + p[1..] == p;
    }
  }

  /** Joining pieces that hold no separator loses nothing: splitting gives them back. */
  lemma {:induction false} SplitJoin(parts: seq<string>, sep: char)
    requires |parts| > 0
    requires forall i :: 0 <= i < |parts| ==> sep !in parts[i]
    ensures Split(Join(parts, sep), sep) == parts
    decreases |parts|
  {
    if |parts| == 1 {
      SplitPlain(parts[0], sep);
    } else {
      SplitJoin(parts[1..], sep);
      SplitFirst(parts[0], sep, Join(parts[1..], sep));
      assert [parts[0]] + parts[1..] == parts;
    }
  }

  /** The error text: one message per rejected file, joined by newlines. */
  function RejectionText(rejected: seq<File>): string
  {
    Join(Messages(rejected), '\n')
  }

  /** A message holds a newline only if the file name does. */
  lemma MessageSingleLine(file: File)
    requires '\n' !in file.name
    ensures '\n' !in RejectionMessage(file)
  {
    assert '\n' !in TooLarge && '\n' !in NotAnImage;
  }

  /** When no file name holds a newline, the error text has exactly one line per
      rejected file, in order. */
  lemma RejectionLines(rejected: seq<File>)
    requires |rejected| > 0
    requires forall i :: 0 <= i < |rejected| ==> '\n' !in rejected[i].name
    ensures Split(RejectionText(rejected), '\n') == Messages(rejected)
  {
    var ms := Messages(rejected);
    forall i | 0 <= i < |ms| ensures '\n' !in ms[i] {
      MessageSingleLine(rejected[i]);
    }
    SplitJoin(ms, '\n');
  }

  /** The component's `previews` and `error` state. */
  class Component {
    var previews: seq<string>
    var error: Option<string>

    constructor ()
      ensures previews == [] && error == None
    {
      previews := [];
      error := None;
    }

    /** `onDrop`. `newPreviews` are the object URLs made for the accepted files; the
        result is what `onImagesSelected` receives, `None` when it is not called. */
    method OnDrop(accepted: seq<File>, rejected: seq<File>, newPreviews: seq<string>) returns (selected: Option<seq<File>>)
      requires |newPreviews| == |accepted|
      modifies this
      ensures |rejected| > 0 ==>
        error == Some(RejectionText(rejected)) && previews == old(previews) && selected == None
      ensures |rejected| == 0 ==>
        error == None && previews == old(previews) + newPreviews && selected == Some(accepted)
    {
      if |rejected| > 0 {
        error := Some(RejectionText(rejected));
        return None;
      }
      error := None;
      previews := previews + newPreviews;
      selected := Some(accepted);
    }
  }
}
