/** What an artefact austin publishes can be made of. */
module AustinProfile {
  import opened Text
  import opened ResultNames
  import opened Pipelines
  import opened EndToEnd
  import Legend

  /** The converter's output, when it succeeds, is text. */
  ghost predicate ConverterYieldsText(world: World) {
    forall mojo :: world.run(Mojo2Austin(mojo)).ok && world.run(Mojo2Austin(mojo)).output.Some?
      ==> !IsMojo(world.run(Mojo2Austin(mojo)).output.value)
  }

  lemma CountSamplesCons(line: string, rest: seq<string>)
    ensures CountSamples([line] + rest) == (if line != "" && line[0] == 'P' then 1 else 0) + CountSamples(rest)
  {
    assert ([line] + rest)[1..] == rest;
  }

  /** The note never reads as a sample, not even when the text before it lacks its last newline. */
  lemma {:induction false} NoteAddsNoSamples(text: string, note: string)
    requires NoNewline(note)
    ensures SampleCount(text + ("# " + note + "\n")) == SampleCount(text)
    decreases |text|
  {
    var added := "# " + note + "\n";
    var whole := text + added;
    var i := IndexOf(text, '\n');
    if text == "" {
      LinesCons("# " + note, "");
      assert whole == "# " + note + "\n" + "";
      CountSamplesCons("# " + note, []);
    } else if i == |text| {
      assert text[..i] == text;
      assert whole == (text + "# " + note) + "\n" + "";
      LinesCons(text + "# " + note, "");
      CountSamplesCons(text + "# " + note, []);
      CountSamplesCons(text, []);
      assert Lines(text) == [text] + [];
    } else {
      var first, rest := text[..i], text[i + 1..];
      assert text == first + "\n" + rest;
      assert whole == first + "\n" + (rest + added);
      LinesCons(first, rest);
      LinesCons(first, rest + added);
      CountSamplesCons(first, Lines(rest));
      CountSamplesCons(first, Lines(rest + added));
      NoteAddsNoSamples(rest, note);
    }
  }

  lemma NoteKeepsText(world: World, text: string)
    requires !IsMojo(text)
    ensures !IsMojo(text + Note(world))
  {
    var whole := text + Note(world);
    if |text| >= 4 {
      assert whole[..4] == text[..4];
    } else {
      assert whole[|text|] == '#';
      assert |whole| >= 4 ==> whole[..4][|text|] == '#';
    }
  }

  /** A line that starts with a P is a sample. */
  predicate HasSample(text: string) {
    exists i :: 0 <= i < |Lines(text)| && Lines(text)[i] != "" && Lines(text)[i][0] == 'P'
  }

  lemma {:induction false} SamplesAreLines(lines: seq<string>)
    ensures CountSamples(lines) > 0 <==> exists i :: 0 <= i < |lines| && lines[i] != "" && lines[i][0] == 'P'
  {
    if lines != [] {
      SamplesAreLines(lines[1..]);
      if i :| 0 <= i < |lines[1..]| && lines[1..][i] != "" && lines[1..][i][0] == 'P' {
        assert lines[i + 1] == lines[1..][i];
      }
      if i :| 0 < i < |lines| && lines[i] != "" && lines[i][0] == 'P' {
        assert lines[1..][i - 1] == lines[i];
      }
    }
  }

  /** The four bytes binary profiles start with. */
  predicate IsBinary(content: string) {
    |content| >= 4 && content[0] == 'M' && content[1] == 'O' && content[2] == 'J' && content[3] == 3 as char
  }

  lemma MojoIsBinary(content: string)
    ensures IsMojo(content) <==> IsBinary(content)
  {
    if IsBinary(content) {
      assert content[..4] == MOJO_MAGIC;
    }
    if IsMojo(content) {
      assert forall i :: 0 <= i < 4 ==> content[i] == MOJO_MAGIC[i];
    }
  }

  /** The profile before the note: what austin wrote, converted if it is binary. */
  function PlainProfile(world: World, job: Job, pid: string): Product { Plain(world, Sampled(world, job, pid)) }

  /** Converted is exactly what starts with the four bytes. */
  lemma PlainMeaning(world: World, content: string)
    ensures Plain(world, Made(content)) == if IsBinary(content) then Converted(world, content) else Made(content)
  {
    MojoIsBinary(content);
  }

  /**
   The sample check: a profile is refused if it is empty, or has a line of 16 MiB or more, or no sample and
   is not raw; a raw one without samples gets the note; any other stays as it is.
   */
  lemma CheckedMeaning(world: World, job: Job, text: string)
    ensures Checked(world, job, Made(text)) ==
              if text == "" then Broken(NoSamples)
              else if exists i :: 0 <= i < |Lines(text)| && |Lines(text)[i]| >= 16777216 then Broken(UnreadableProfile)
              else if HasSample(text) then Made(text)
              else if job.outputType == "raw" then Made(text + ("# " + world.noGrowth + "\n"))
              else Broken(NoGrowth)
  {
    SamplesAreLines(Lines(text));
    LimitMeaning(text);
    assert Note(world) == "# " + world.noGrowth + "\n";
  }

  lemma LimitMeaning(text: string)
    ensures !Legend.Scannable(text, SAMPLE_LIMIT) <==>
              exists i :: 0 <= i < |Lines(text)| && |Lines(text)[i]| >= 16777216
  {
    if Legend.Scannable(text, SAMPLE_LIMIT) {
      assert forall i :: 0 <= i < |Lines(text)| ==> |Lines(text)[i]| < 16777216;
    }
  }

  /**
   Whatever austin's task publishes is made from a text profile that is not empty and not binary, and has a sample
   line or, for raw output only, ends with the no-growth note and has no sample line.
   */
  lemma PublishedFromText(world: World, job: Job, pid: string)
    requires job.tool == Austin && ConverterYieldsText(world) && NoNewline(world.noGrowth)
    requires Produced(world, job, pid).Made?
    ensures var plain := PlainProfile(world, job, pid);
            && plain.Made? && plain.content != "" && !IsBinary(plain.content)
            && (if HasSample(plain.content) then Produced(world, job, pid) == FromText(world, job, plain)
                else
                  var noted := plain.content + ("# " + world.noGrowth + "\n");
                  && job.outputType == "raw" && !HasSample(noted) && !IsBinary(noted)
                  && Produced(world, job, pid) == FromText(world, job, Made(noted)))
  {
    var plain := PlainProfile(world, job, pid);
    assert TextProfile(world, job, pid) == Checked(world, job, plain);
    CheckedMeaning(world, job, plain.content);
    PlainIsText(world, job, pid);
    if !HasSample(plain.content) {
      NotedHasNoSample(world, plain.content);
    }
  }

  lemma PlainIsText(world: World, job: Job, pid: string)
    requires ConverterYieldsText(world) && PlainProfile(world, job, pid).Made?
    ensures !IsBinary(PlainProfile(world, job, pid).content)
  {
    MojoIsBinary(PlainProfile(world, job, pid).content);
    var content := Sampled(world, job, pid).content;
    PlainMeaning(world, content);
    if IsBinary(content) {
      assert world.run(Mojo2Austin(content)).ok;
    }
  }

  lemma NotedHasNoSample(world: World, plain: string)
    requires NoNewline(world.noGrowth) && !IsBinary(plain) && !HasSample(plain)
    ensures var noted := plain + ("# " + world.noGrowth + "\n"); !HasSample(noted) && !IsBinary(noted)
  {
    var noted := plain + ("# " + world.noGrowth + "\n");
    SamplesAreLines(Lines(plain));
    SamplesAreLines(Lines(noted));
    NoteAddsNoSamples(plain, world.noGrowth);
    MojoIsBinary(plain);
    MojoIsBinary(noted);
    NoteKeepsText(world, plain);
  }
}
