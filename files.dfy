/** The runtime snapshot on disk, shared by server/runtimeWriter.js (which
    writes it) and framework/utils/configLoader.js (which reads it back): a
    map from file path to the document the file holds. A file's JSON text is
    represented by the value it parses to; a file that does not parse is
    `Unparsable`. */
module Files {
  import opened Defs

  /** What a snapshot file holds once parsed. */
  datatype Doc =
    | TestcasesDoc(testcases: seq<Testcase>)
    | ScenariosDoc(scenarios: seq<Scenario>)
    | PagesDoc(pages: seq<PageDef>)
    | TestDataDoc(testData: seq<TestData>)
    | MetaDoc(meta: RunMeta)
    | Unparsable

  /** `path.join(dir, name)` for a plain file name. */
  function JoinPath(dir: string, name: string): (p: string)
    ensures Under(p, dir)
    ensures |p| == |dir| + 1 + |name|
    ensures p[|dir| + 1..] == name
  {
    assert (dir + "/" + name)[..|dir| + 1] == dir + "/";
    dir + "/" + name
  }

  /** Two names in one directory are two different paths. */
  lemma JoinPathInjective(dir: string, a: string, b: string)
    requires a != b
    ensures JoinPath(dir, a) != JoinPath(dir, b)
  {
    assert JoinPath(dir, a)[|dir| + 1..] == a;
  }

  /** `p` is `dir` itself or lies somewhere below it. */
  predicate Under(p: string, dir: string)
  {
    p == dir || dir + "/" <= p
  }

  /** The file map after `fs.rmSync(dir, {recursive: true, force: true})`:
      everything at or below `dir` is gone, a missing `dir` is no error. */
  function WithoutTree(files: map<string, Doc>, dir: string): (r: map<string, Doc>)
    ensures forall p :: p in r <==> p in files && !Under(p, dir)
    ensures forall p :: p in r ==> r[p] == files[p]
  {
    map p | p in files && !Under(p, dir) :: files[p]
  }

  /** The file system the writer changes and the loader reads. */
  class FileSystem {
    var files: map<string, Doc>

    constructor (files: map<string, Doc>)
      ensures this.files == files
    {
      this.files := files;
    }

    /** `fs.rmSync(dir, {recursive: true, force: true})`. */
    method RemoveTree(dir: string)
      modifies this
      ensures files == WithoutTree(old(files), dir)
    {
      files := WithoutTree(files, dir);
    }

    /** `fs.writeFileSync(path, JSON.stringify(doc))`: the file is created or
        replaced. */
    method WriteFile(path: string, doc: Doc)
      modifies this
      ensures files == old(files)[path := doc]
    {
      files := files[path := doc];
    }
  }
}
