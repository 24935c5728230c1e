/** The output file names of proceso_completo, built with os.path.join from
    the output folder and the session's base name. */
module Paths {

  /** posixpath.join(folder, name): an absolute `name` replaces the folder;
      otherwise a separator is inserted unless the folder is empty or already
      ends in one. */
  function Join(folder: string, name: string): (p: string)
    ensures |p| >= |name| && p[|p| - |name|..] == name
  {
    if |name| > 0 && name[0] == '/' then name
    else if |folder| == 0 || folder[|folder| - 1] == '/' then folder + name
    else folder + "/" + name
  }

  /** A relative name lands under the folder: the path starts with the
      folder, and exactly one separator stands between the two unless the
      folder is empty or already ends in one. An absolute name is the path
      itself. */
  lemma JoinUnderFolder(folder: string, name: string)
    ensures var p := Join(folder, name);
      && (|name| > 0 && name[0] == '/' ==> p == name)
      && (!(|name| > 0 && name[0] == '/') ==>
            && |p| >= |folder| + |name| && p[..|folder|] == folder
            && (|p| == |folder| + |name| <==> |folder| == 0 || folder[|folder| - 1] == '/')
            && (|p| > |folder| + |name| ==> |p| == |folder| + |name| + 1 && p[|folder|] == '/'))
  {
  }

  datatype OutputPaths = OutputPaths(wav: string, csv: string, txt: string, synth: string)

  /** ruta_wav, ruta_csv, ruta_txt and ruta_synth for one session. */
  function PathsFor(folder: string, base: string): OutputPaths
  {
    OutputPaths(
      Join(folder, base + ".wav"),
      Join(folder, base + "_matriz.csv"),
      Join(folder, base + ".txt"),
      Join(folder, base + "_synth.wav"))
  }

  /** Joining a name that does not start a new absolute path is joining its
      stem and then appending the rest. */
  lemma JoinAppends(folder: string, stem: string, suffix: string)
    requires |suffix| > 0 && suffix[0] != '/'
    ensures Join(folder, stem + suffix) == Join(folder, stem) + suffix
  {
    if |stem| > 0 {
      assert (stem + suffix)[0] == stem[0];
    }
  }

  /** The four paths are the joined base name followed by `.wav`,
      `_matriz.csv`, `.txt` and `_synth.wav`, and no two coincide. */
  lemma PathsFromBase(folder: string, base: string)
    ensures var p, stem := PathsFor(folder, base), Join(folder, base);
      && p.wav == stem + ".wav" && p.csv == stem + "_matriz.csv"
      && p.txt == stem + ".txt" && p.synth == stem + "_synth.wav"
    ensures var p := PathsFor(folder, base);
      && p.wav != p.csv && p.wav != p.txt && p.wav != p.synth
      && p.csv != p.txt && p.csv != p.synth && p.txt != p.synth
  {
    var stem := Join(folder, base);
    JoinAppends(folder, base, ".wav");
    JoinAppends(folder, base, "_matriz.csv");
    JoinAppends(folder, base, ".txt");
    JoinAppends(folder, base, "_synth.wav");
    assert (stem + ".wav")[|stem| + 1] != (stem + ".txt")[|stem| + 1];
  }

  /** Unless the base name is itself absolute, all four files land in the
      output folder. */
  lemma PathsUnderFolder(folder: string, base: string)
    requires !(|base| > 0 && base[0] == '/')
    ensures var p := PathsFor(folder, base);
      && p.wav[..|folder|] == folder && p.csv[..|folder|] == folder
      && p.txt[..|folder|] == folder && p.synth[..|folder|] == folder
  {
    if |base| > 0 {
      assert (base + ".wav")[0] == base[0] && (base + "_matriz.csv")[0] == base[0];
      assert (base + ".txt")[0] == base[0] && (base + "_synth.wav")[0] == base[0];
    }
    JoinUnderFolder(folder, base + ".wav");
    JoinUnderFolder(folder, base + "_matriz.csv");
    JoinUnderFolder(folder, base + ".txt");
    JoinUnderFolder(folder, base + "_synth.wav");
  }
}
