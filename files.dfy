/** The file system the three drivers share. A file holds bytes, written here as a string;
    the formats stored in files (CSV text, pickled objects, PNG figures) are produced and
    read back by codecs the drivers are given, since pandas, pickle and matplotlib are not
    part of this model. */
module Files {
  import opened Wrappers
  import opened Values
  import opened Frames

  /** The paths that exist and what each one holds. */
  class FileSystem {
    var files: map<string, string>

    constructor (files: map<string, string>)
      ensures this.files == files
    {
      this.files := files;
    }

    /** `if os.path.exists(path): os.remove(path)`. */
    method RemoveIfExists(path: string)
      modifies this
      ensures files == old(files) - {path}
    {
      if path in files {
        files := files - {path};
      }
    }

    /** A dump: the folder is made (`make_folder`) and the file written, replacing any
        earlier content. */
    method Write(path: string, content: string)
      modifies this
      ensures files == old(files)[path := content]
    {
      files := files[path := content];
    }
  }

  /** The foreign readers and writers of file contents: `pd.read_csv` with a separator,
      `to_csv` with a separator, the parse of one time cell, the time stamp format
      `'%Y-%m-%d %H:%M'`, pickle's dump and load (None when the bytes are not a pickle),
      and the figure `plot_model_results` draws from the results and the metrics. */
  datatype Codecs = Codecs(
    parse: (string, string) -> Table,
    render: (Table, string) -> string,
    parseTime: Field -> Option<Time>,
    stamp: Time -> string,
    pickle: map<string, Table> -> string,
    unpickle: string -> Option<map<string, Table>>,
    plot: (Frame, Frame) -> string)

  /** `pd.read_csv` gives a table whose rows are as wide as its header. */
  ghost predicate Sound(c: Codecs) {
    forall text, sep :: WfTable(c.parse(text, sep))
  }
}
