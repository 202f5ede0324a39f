/**
 * The convert command: decide, from whether the input file exists, its path
 * and the requested format, whether to run the encoder and on which output
 * path. The encoder run itself is outside the model.
 */
module Convert {
  import opened GoStd

  /** What convertFile ends up doing. */
  datatype Outcome =
    | FileNotFound
    | NoFormat
    | AlreadyInFormat(format: string)
    | UnsupportedFormat
    | Converting(output: string, ffmpeg: Command)

  /**
   * The input path with its extension, lower-cased, trimmed off when the path
   * ends with it. An extension holding upper-case letters is therefore kept.
   */
  function BaseName(input: string): string {
    TrimSuffix(input, ToLower(Ext(input)))
  }

  function ConvertFile(found: bool, input: string, target: string): (o: Outcome)
    // existence is checked before the format is looked at
    ensures o == FileNotFound <==> !found
    ensures o == NoFormat <==> found && target == ""
    ensures o == UnsupportedFormat <==> found && target !in {"", "mp3", "wav"}
    ensures o.AlreadyInFormat? <==> found && target in {"mp3", "wav"} && ToLower(Ext(input)) == "." + target
    ensures o.AlreadyInFormat? ==> o.format == target
    ensures o.Converting? ==>
              && found && (target == "mp3" || target == "wav")
              && o.output == BaseName(input) + "." + target
              && o.ffmpeg == Command("ffmpeg", ["-i", input, o.output])
  {
    if !found then FileNotFound
    else
      var ext := ToLower(Ext(input));
      var fileName := TrimSuffix(input, ext);
      if target == "" then NoFormat
      else if target == "mp3" then
        if ext == ".mp3" then AlreadyInFormat("mp3")
        else Converting(fileName + ".mp3", Command("ffmpeg", ["-i", input, fileName + ".mp3"]))
      else if target == "wav" then
        if ext == ".wav" then AlreadyInFormat("wav")
        else Converting(fileName + ".wav", Command("ffmpeg", ["-i", input, fileName + ".wav"]))
      else UnsupportedFormat
  }

  /** A lower-case extension is replaced by the target one. */
  lemma ConvertReplacesLowerCaseExt(input: string, target: string)
    requires ConvertFile(true, input, target).Converting?
    requires ToLower(Ext(input)) == Ext(input)
    ensures var ext := Ext(input);
      HasSuffix(input, ext) &&
      ConvertFile(true, input, target).output == input[..|input| - |ext|] + "." + target
  {
    ExtShape(input);
  }

  /** An extension with upper-case letters is not stripped: the target is appended after it. */
  lemma ConvertKeepsMixedCaseExt(input: string, target: string)
    requires ConvertFile(true, input, target).Converting?
    requires ToLower(Ext(input)) != Ext(input)
    ensures ConvertFile(true, input, target).output == input + "." + target
  {
    var ext := Ext(input);
    ExtShape(input);
    assert ext != "";
    assert !HasSuffix(input, ToLower(ext));
  }

  /** The output path carries the target format as its extension. */
  lemma ConvertedOutputHasTargetExt(found: bool, input: string, target: string)
    requires ConvertFile(found, input, target).Converting?
    ensures Ext(ConvertFile(found, input, target).output) == "." + target
  {
    assert PlainFrom(target, 0);
    ExtOfAppended(BaseName(input), target);
  }

  /** Converting the output again to the same format finds it already in that format. */
  lemma ConvertTwiceIsAlreadyDone(found: bool, input: string, target: string)
    requires ConvertFile(found, input, target).Converting?
    ensures ConvertFile(true, ConvertFile(found, input, target).output, target) == AlreadyInFormat(target)
  {
    var output := ConvertFile(found, input, target).output;
    ConvertedOutputHasTargetExt(found, input, target);
    assert ToLower(Ext(output)) == "." + target by {
      assert Ext(output) == "." + target;
      assert ToLower("." + target) == "." + target;
    }
  }

  /** A file named "song.WAV" converted to mp3 becomes "song.WAV.mp3". */
  lemma UpperCaseExtExample()
    ensures ConvertFile(true, "song.WAV", "mp3") == Converting("song.WAV.mp3", Command("ffmpeg", ["-i", "song.WAV", "song.WAV.mp3"]))
  {
    var input := "song.WAV";
    assert input == "song" + "." + "WAV";
    ExtOfAppended("song", "WAV");
    assert Ext(input) == ".WAV";
    assert ToLower(".WAV") == ".wav";
    assert ToLower(Ext(input)) != Ext(input);
    assert ConvertFile(true, input, "mp3").Converting?;
    ConvertKeepsMixedCaseExt(input, "mp3");
    assert input + "." + "mp3" == "song.WAV.mp3";
  }
}
