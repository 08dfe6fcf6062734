/** The upload filter of the drop zone (src/components/DropZone.tsx). */
module DropZone {
  import opened Wrappers
  import opened Text
  import opened BatchTypes

  /** 100 MiB. */
  const MAX_FILE_SIZE: nat := 100 * 1024 * 1024

  const INVALID_TYPE_TOAST: string := "Unsupported file format. Please use MP3, WAV, M4A, or MP4."
  const OVERSIZED_TOAST: string := "Some files exceed the 100MB size limit."

  predicate IsValidType(mimeType: string) {
    StartsWith(mimeType, "audio/") || StartsWith(mimeType, "video/")
  }

  predicate IsValidSize(size: nat) {
    size <= MAX_FILE_SIZE
  }

  predicate Acceptable(f: SourceFile) {
    IsValidType(f.mimeType) && IsValidSize(f.size)
  }

  /** The files the filter keeps, in their original order. */
  function Accepted(files: seq<SourceFile>): (kept: seq<SourceFile>)
    ensures |kept| <= |files|
  {
    if files == [] then [] else (if Acceptable(files[0]) then [files[0]] else []) + Accepted(files[1..])
  }

  /** A file is kept exactly when it is in the input with an audio or video type and a size
      of at most 100 MiB. */
  lemma {:induction false} AcceptedMembers(files: seq<SourceFile>)
    ensures forall f :: f in Accepted(files) <==> f in files && Acceptable(f)
  {
    if files != [] {
      AcceptedMembers(files[1..]);
      assert files == [files[0]] + files[1..];
    }
  }

  /** Filtering a list is filtering its parts. */
  lemma {:induction false} AcceptedAppend(a: seq<SourceFile>, b: seq<SourceFile>)
    ensures Accepted(a + b) == Accepted(a) + Accepted(b)
  {
    if a == [] {
      assert a + b == b;
    } else {
      var head := if Acceptable(a[0]) then [a[0]] else [];
      assert (a + b)[0] == a[0];
      assert (a + b)[1..] == a[1..] + b;
      assert Accepted(a + b) == head + Accepted(a[1..] + b);
      AcceptedAppend(a[1..], b);
      assert Accepted(a) == head + Accepted(a[1..]);
    }
  }

  /** `xs` is `ys` with some elements left out. */
  ghost predicate SubsequenceOf<T>(xs: seq<T>, ys: seq<T>)
    decreases |ys|
  {
    if xs == [] then true
    else if ys == [] then false
    else (xs[0] == ys[0] && SubsequenceOf(xs[1..], ys[1..])) || SubsequenceOf(xs, ys[1..])
  }

  /** The kept files are a subsequence of the input: nothing is added or reordered. */
  lemma {:induction false} AcceptedIsSubsequence(files: seq<SourceFile>)
    ensures SubsequenceOf(Accepted(files), files)
  {
    if files != [] {
      var rest := Accepted(files[1..]);
      AcceptedIsSubsequence(files[1..]);
      if Acceptable(files[0]) {
        assert Accepted(files) == [files[0]] + rest;
        assert Accepted(files)[1..] == rest;
      } else {
        assert Accepted(files) == rest;
      }
    }
  }

  /** Exactly 100 MiB is accepted; one byte more is not. */
  lemma SizeLimitBoundary(name: string, mimeType: string)
    requires IsValidType(mimeType)
    ensures Accepted([SourceFile(name, MAX_FILE_SIZE, mimeType)]) == [SourceFile(name, MAX_FILE_SIZE, mimeType)]
    ensures Accepted([SourceFile(name, MAX_FILE_SIZE + 1, mimeType)]) == []
  {
  }

  /** `validateAndFilterFiles`: keeps the acceptable files and reports whether some file had
      a bad type, and whether some well-typed file was too large (a file that is both counts
      only as a bad type). */
  method ValidateAndFilterFiles(files: seq<SourceFile>) returns (validFiles: seq<SourceFile>, hasInvalidType: bool, hasOversized: bool)
    ensures validFiles == Accepted(files)
    ensures hasInvalidType <==> exists i :: 0 <= i < |files| && !IsValidType(files[i].mimeType)
    ensures hasOversized <==> exists i :: 0 <= i < |files| && IsValidType(files[i].mimeType) && !IsValidSize(files[i].size)
  {
    validFiles := [];
    hasInvalidType := false;
    hasOversized := false;
    var i := 0;
    while i < |files|
      invariant 0 <= i <= |files|
      invariant validFiles == Accepted(files[..i])
      invariant hasInvalidType <==> exists j :: 0 <= j < i && !IsValidType(files[j].mimeType)
      invariant hasOversized <==> exists j :: 0 <= j < i && IsValidType(files[j].mimeType) && !IsValidSize(files[j].size)
    {
      var file := files[i];
      var isValidType := StartsWith(file.mimeType, "audio/") || StartsWith(file.mimeType, "video/");
      var isValidSize := file.size <= MAX_FILE_SIZE;
      AcceptedAppend(files[..i], [file]);
      assert files[..i + 1] == files[..i] + [file];
      if !isValidType {
        hasInvalidType := true;
      } else if !isValidSize {
        hasOversized := true;
      } else {
        validFiles := validFiles + [file];
      }
      i := i + 1;
    }
    assert files[..i] == files;
  }

  /** Some file has a type other than audio or video. */
  predicate SomeInvalidType(files: seq<SourceFile>) {
    exists i :: 0 <= i < |files| && !IsValidType(files[i].mimeType)
  }

  /** Some audio or video file is larger than 100 MiB. */
  predicate SomeOversized(files: seq<SourceFile>) {
    exists i :: 0 <= i < |files| && IsValidType(files[i].mimeType) && !IsValidSize(files[i].size)
  }

  /** The toasts shown after filtering, in the order they are raised. */
  function Toasts(hasInvalidType: bool, hasOversized: bool): (ts: seq<string>)
    ensures INVALID_TYPE_TOAST in ts <==> hasInvalidType
    ensures OVERSIZED_TOAST in ts <==> hasOversized
    ensures |ts| <= 2
  {
    (if hasInvalidType then [INVALID_TYPE_TOAST] else []) + (if hasOversized then [OVERSIZED_TOAST] else [])
  }

  /** What a drop hands to `onFilesAdded`: nothing while processing, nothing when no file
      passes, and otherwise the non-empty list of acceptable files. */
  method HandleDrop(isProcessing: bool, dropped: seq<SourceFile>) returns (added: Option<seq<SourceFile>>, toasts: seq<string>)
    ensures isProcessing ==> added == None && toasts == []
    ensures !isProcessing ==> added == (if Accepted(dropped) != [] then Some(Accepted(dropped)) else None)
    ensures !isProcessing ==> toasts == Toasts(SomeInvalidType(dropped), SomeOversized(dropped))
    ensures added.Some? ==> added.value != []
  {
    if isProcessing {
      return None, [];
    }
    var validFiles, hasInvalidType, hasOversized := ValidateAndFilterFiles(dropped);
    toasts := Toasts(hasInvalidType, hasOversized);
    added := if |validFiles| > 0 then Some(validFiles) else None;
  }

  /** The file picker: an absent or empty selection is ignored without validation; the
      processing flag is not consulted. */
  method HandleFileInput(selected: Option<seq<SourceFile>>) returns (added: Option<seq<SourceFile>>, toasts: seq<string>)
    ensures selected.None? || selected.value == [] ==> added == None && toasts == []
    ensures selected.Some? && selected.value != [] ==>
      added == (if Accepted(selected.value) != [] then Some(Accepted(selected.value)) else None)
    ensures selected.Some? && selected.value != [] ==>
      toasts == Toasts(SomeInvalidType(selected.value), SomeOversized(selected.value))
    ensures added.Some? ==> added.value != []
  {
    added, toasts := None, [];
    if selected.Some? && |selected.value| > 0 {
      var validFiles, hasInvalidType, hasOversized := ValidateAndFilterFiles(selected.value);
      toasts := Toasts(hasInvalidType, hasOversized);
      if |validFiles| > 0 {
        added := Some(validFiles);
      }
    }
  }
}
