/**
 * The services the screens call out to, reduced to the state they change.
 * Whether a write or an upload succeeds is decided outside the app, so every
 * such outcome is a parameter.
 */
module Platform {

  /** An `Alert.alert(title, message)` dialog. */
  datatype Alert = Alert(title: string, message: string)

  /** The dialog every screen here uses to report a problem. */
  function ErrorAlert(message: string): Alert {
    Alert("Error", message)
  }

  /** A Firestore collection: the documents it holds, in the order they were written. */
  class Collection<T> {
    var docs: seq<T>

    constructor (initial: seq<T>)
      ensures docs == initial
    {
      docs := initial;
    }

    /** `collection(..).add(doc)`; `succeeds` is the outcome the server decides. */
    method Add(doc: T, succeeds: bool)
      modifies this
      ensures docs == if succeeds then old(docs) + [doc] else old(docs)
    {
      if succeeds {
        docs := docs + [doc];
      }
    }
  }

  /** A Storage bucket: each stored path with the local file uploaded to it. */
  class Bucket {
    var files: map<string, string>

    constructor ()
      ensures files == map[]
    {
      files := map[];
    }

    /** `ref(path).putFile(localUri)`; `succeeds` is the outcome the server decides. */
    method PutFile(path: string, localUri: string, succeeds: bool)
      modifies this
      ensures files == if succeeds then old(files)[path := localUri] else old(files)
    {
      if succeeds {
        files := files[path := localUri];
      }
    }
  }
}
