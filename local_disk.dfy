/**
 * The files the indexer reads and writes in its working directory: the key
 * file `encryption_key.bin` and the JSON ticket files, each already parsed
 * into its list of ticket records.
 */
module LocalDisk {
  import opened Wrappers
  import opened Records

  class Disk {
    /** Contents of `encryption_key.bin`, or None when the file does not exist. */
    var keyFile: Option<Key>
    /** The ticket files that exist, by path. */
    var ticketFiles: map<string, seq<Ticket>>

    constructor(keyFile: Option<Key>, ticketFiles: map<string, seq<Ticket>>)
      ensures this.keyFile == keyFile && this.ticketFiles == ticketFiles
    {
      this.keyFile := keyFile;
      this.ticketFiles := ticketFiles;
    }
  }
}
