/**
 * The new-product screen: a form whose picked image is uploaded to
 * `products/<file name>` before the product document is written.
 */
module NewProduct {
  import opened Wrappers
  import opened Platform
  import opened JsString

  /** `uri.substring(uri.lastIndexOf('/') + 1)`: the text after the last '/'. */
  function FileName(uri: string): (r: string)
    ensures |r| <= |uri| && r == uri[|uri| - |r|..]
    ensures '/' !in r
    ensures |r| < |uri| ==> uri[|uri| - |r| - 1] == '/'
  {
    var cut := LastIndexOf(uri, '/') + 1;
    assert forall k :: 0 <= k < |uri| - cut ==> uri[cut..][k] == uri[cut + k];
    uri[cut..]
  }

  /** Without any '/', the file name is the whole uri. */
  lemma FileNameWithoutSlash(uri: string)
    requires '/' !in uri
    ensures FileName(uri) == uri
  {
  }

  /** A uri ending in '/' has an empty file name. */
  lemma FileNameAfterTrailingSlash(uri: string)
    requires |uri| > 0 && uri[|uri| - 1] == '/'
    ensures FileName(uri) == ""
  {
  }

  /** A uri with a '/' is its directory part, one '/', and the file name. */
  lemma FileNameSplitsUri(uri: string)
    requires '/' in uri
    ensures var r := FileName(uri);
      |r| < |uri| && uri == uri[..|uri| - |r| - 1] + "/" + r
  {
    var r := FileName(uri);
    assert uri == uri[..|uri| - |r| - 1] + [uri[|uri| - |r| - 1]] + uri[|uri| - |r|..];
  }

  /** The folder every product image goes to. */
  const Folder: string := "products/"

  /** The only '/' in the folder is its last character. */
  lemma FolderEndsInItsOnlySlash()
    ensures Folder[|Folder| - 1] == '/'
    ensures forall j :: 0 <= j < |Folder| - 1 ==> Folder[j] != '/'
  {
  }

  /** `products/${filename}`. */
  function StoragePath(uri: string): string {
    Folder + FileName(uri)
  }

  /** The storage path names a file directly inside the products folder: its only '/' ends the folder. */
  lemma StoragePathIsInFolder(uri: string)
    ensures var r := StoragePath(uri);
      && |r| >= |Folder| && r[..|Folder|] == Folder && r[|Folder|..] == FileName(uri)
      && (forall j :: 0 <= j < |r| && r[j] == '/' ==> j == |Folder| - 1)
  {
    var name := FileName(uri);
    var r := StoragePath(uri);
    FolderEndsInItsOnlySlash();
    forall j | 0 <= j < |r| && r[j] == '/'
      ensures j == |Folder| - 1
    {
      if j < |Folder| {
        assert r[j] == Folder[j];
      }
    }
  }

  /** Two uris that share a file name share a storage path: one overwrites the other. */
  lemma SameFileNameSamePath(u: string, v: string)
    requires FileName(u) == FileName(v)
    ensures StoragePath(u) == StoragePath(v)
  {
  }

  /** The validation gate: three non-blank texts and a picked image. */
  predicate AllFieldsFilled(productName: string, description: string, price: string, imageUri: Option<string>) {
    Filled(productName) && Filled(description) && Filled(price) && imageUri.Some? && imageUri.value != ""
  }

  /** The gate passes exactly when no text is blank and an image uri is set. */
  lemma AllFieldsFilledIff(productName: string, description: string, price: string, imageUri: Option<string>)
    ensures AllFieldsFilled(productName, description, price, imageUri) <==>
      !Blank(productName) && !Blank(description) && !Blank(price) && imageUri.Some? && imageUri.value != ""
  {
    TrimEmptyIffBlank(productName);
    TrimEmptyIffBlank(description);
    TrimEmptyIffBlank(price);
  }

  /** A document of the `products` collection, less its server timestamp. */
  datatype ProductDoc = ProductDoc(productName: string, description: string, price: string, imageUrl: string)

  /** How the two storage calls end: `putFile` throws, `getDownloadURL` throws, or both succeed with a url. */
  datatype StorageOutcome = PutFileFailed | DownloadUrlFailed | Uploaded(url: string)

  /** What `uploadImage` settles to: null, a url, or a rejection. */
  datatype Upload = Null | Url(url: string) | Rejected

  /** The screen's state. */
  class NewProductScreen {
    var productName: string
    var description: string
    var price: string
    var imageUri: Option<string>
    var isModalVisible: bool
    var isLoading: bool
    /** The last alert shown, if any. */
    var alert: Option<Alert>

    constructor ()
      ensures productName == "" && description == "" && price == "" && imageUri == None
      ensures !isModalVisible && !isLoading && alert == None
    {
      productName, description, price, imageUri := "", "", "", None;
      isModalVisible, isLoading, alert := false, false, None;
    }

    /** `uploadImage`: nothing when no image was picked, else the file goes to its storage path. */
    method UploadImage(bucket: Bucket, storage: StorageOutcome) returns (result: Upload)
      modifies bucket
      ensures imageUri.None? ==> result == Null && bucket.files == old(bucket.files)
      ensures imageUri.Some? ==>
        && bucket.files == (if storage.PutFileFailed? then old(bucket.files)
                            else old(bucket.files)[StoragePath(imageUri.value) := imageUri.value])
        && result == (if storage.Uploaded? then Url(storage.url) else Rejected)
    {
      if imageUri.None? {
        return Null;
      }
      var uploadUri := imageUri.value;
      var path := StoragePath(uploadUri);
      bucket.PutFile(path, uploadUri, !storage.PutFileFailed?);
      if storage.Uploaded? {
        result := Url(storage.url);
      } else {
        result := Rejected;
      }
    }

    /**
     * `handleSubmit`: `storage` is how the upload ends and `writeOk` whether
     * the product document's write succeeds.
     */
    method HandleSubmit(bucket: Bucket, products: Collection<ProductDoc>, storage: StorageOutcome, writeOk: bool)
      modifies this`isLoading, this`isModalVisible, this`alert, bucket, products
      ensures !AllFieldsFilled(productName, description, price, imageUri) ==>
        && alert == Some(ErrorAlert("Please fill out all fields"))
        && isLoading == old(isLoading) && isModalVisible == old(isModalVisible)
        && bucket.files == old(bucket.files) && products.docs == old(products.docs)
      ensures AllFieldsFilled(productName, description, price, imageUri) ==>
        var saved := storage.Uploaded? && storage.url != "" && writeOk;
        && !isLoading
        && bucket.files == (if storage.PutFileFailed? then old(bucket.files)
                            else old(bucket.files)[StoragePath(imageUri.value) := imageUri.value])
        && products.docs == (if saved then old(products.docs) + [ProductDoc(productName, description, price, storage.url)]
                             else old(products.docs))
        && isModalVisible == (saved || old(isModalVisible))
        && alert == (if saved then old(alert) else Some(ErrorAlert("Failed to save product")))
    {
      if AllFieldsFilled(productName, description, price, imageUri) {
        isLoading := true;
        Save(bucket, products, storage, writeOk);
      } else {
        alert := Some(ErrorAlert("Please fill out all fields"));
      }
    }

    /** `handleSubmit` past the field check: upload, then write, then report. */
    method Save(bucket: Bucket, products: Collection<ProductDoc>, storage: StorageOutcome, writeOk: bool)
      requires imageUri.Some?
      modifies this`isLoading, this`isModalVisible, this`alert, bucket, products
      ensures var saved := storage.Uploaded? && storage.url != "" && writeOk;
        && !isLoading
        && bucket.files == (if storage.PutFileFailed? then old(bucket.files)
                            else old(bucket.files)[StoragePath(imageUri.value) := imageUri.value])
        && products.docs == (if saved then old(products.docs) + [ProductDoc(productName, description, price, storage.url)]
                             else old(products.docs))
        && isModalVisible == (saved || old(isModalVisible))
        && alert == (if saved then old(alert) else Some(ErrorAlert("Failed to save product")))
    {
      var imageUrl := UploadImage(bucket, storage);
      Publish(products, imageUrl, writeOk);
    }

    /**
     * After `await uploadImage()`: write the product when a url came back,
     * then show the modal, or the error when there was no url or the write failed.
     */
    method Publish(products: Collection<ProductDoc>, imageUrl: Upload, writeOk: bool)
      modifies this`isLoading, this`isModalVisible, this`alert, products
      ensures var saved := imageUrl.Url? && imageUrl.url != "" && writeOk;
        && !isLoading
        && products.docs == (if saved then old(products.docs) + [ProductDoc(productName, description, price, imageUrl.url)]
                             else old(products.docs))
        && isModalVisible == (saved || old(isModalVisible))
        && alert == (if saved then old(alert) else Some(ErrorAlert("Failed to save product")))
    {
      var saved := false;
      if imageUrl.Url? && imageUrl.url != "" {
        products.Add(ProductDoc(productName, description, price, imageUrl.url), writeOk);
        saved := writeOk;
      }
      if saved {
        isLoading := false;
        isModalVisible := true;
      } else {
        alert := Some(ErrorAlert("Failed to save product"));
        isLoading := false;
      }
    }
  }
}
