/**
 * The minting form: six pieces of component state, the three event handlers that
 * change them, and the render conditions that decide which controls are shown.
 *
 * The collaborators the handlers call (the upload endpoint, the mint service, the
 * notification toast, `URL.createObjectURL`, public-key parsing, the wallet) are not
 * modelled inside: each handler receives their answer as a parameter. Every call to
 * the upload endpoint, the mint service, the toast and `URL.createObjectURL` is
 * appended, in order, to the `effects` log of the form; the key parse is not logged.
 */
module NftMinter {
  import opened Wrappers
  import Explorer

  const TOKEN_NAME: string := "Solana Workshop NFT"
  const TOKEN_SYMBOL: string := "SHOP"
  const TOKEN_DESCRIPTION: string := "NFT minted in the NFT Minter workshop!"
  /** The base58 text of the workshop collection key, as `toBase58` gives it back. */
  const WORKSHOP_COLLECTION: string := "CPpyd2Uq1XkCkd9KHswjttdQXTvZ4mmrnif3tXg9i8sk"

  // ---------------------------------------------------------------------------
  // The metadata record and its field editor

  /** The four text inputs of the metadata form. */
  datatype Field = MintName | MintSymbol | MintDescription | MintCollection

  /** The `name` attribute of each input, which `onChange` receives. */
  function FieldName(f: Field): string {
    match f
    case MintName => "mintName"
    case MintSymbol => "mintSymbol"
    case MintDescription => "mintDescription"
    case MintCollection => "mintCollection"
  }

  /** The field an input name denotes, if it denotes one. */
  function FieldNamed(name: string): (r: Option<Field>)
    ensures r.Some? ==> FieldName(r.value) == name
    ensures r.None? <==> forall f: Field :: FieldName(f) != name
  {
    if name == "mintName" then Some(MintName)
    else if name == "mintSymbol" then Some(MintSymbol)
    else if name == "mintDescription" then Some(MintDescription)
    else if name == "mintCollection" then Some(MintCollection)
    else None
  }

  datatype Details = Details(mintName: string, mintSymbol: string, mintDescription: string, mintCollection: string)
  {
    function Get(f: Field): string {
      match f
      case MintName => mintName
      case MintSymbol => mintSymbol
      case MintDescription => mintDescription
      case MintCollection => mintCollection
    }

    /** The record with field `f` replaced by `value`. */
    function With(f: Field, value: string): (r: Details)
      ensures r.Get(f) == value
      ensures forall g :: g != f ==> r.Get(g) == Get(g)
    {
      match f
      case MintName => this.(mintName := value)
      case MintSymbol => this.(mintSymbol := value)
      case MintDescription => this.(mintDescription := value)
      case MintCollection => this.(mintCollection := value)
    }
  }

  const DEFAULT_DETAILS: Details := Details(TOKEN_NAME, TOKEN_SYMBOL, TOKEN_DESCRIPTION, WORKSHOP_COLLECTION)

  /**
   * The record `onChange` stores: a spread of the old record with the input's name
   * set to its value. A name outside the four only adds a key nobody reads, so the
   * four fields stay as they were.
   */
  function Edit(d: Details, name: string, value: string): (r: Details)
    ensures forall f :: r.Get(f) == if FieldName(f) == name then value else d.Get(f)
  {
    match FieldNamed(name)
    case Some(f) => d.With(f, value)
    case None => d
  }

  /** Each input of the form edits exactly its own field. */
  lemma EditInput(d: Details, f: Field, value: string)
    ensures Edit(d, FieldName(f), value) == d.With(f, value)
  {
  }

  /** Typing back the value a field already shows changes nothing. */
  lemma EditUnchangedValue(d: Details, name: string)
    requires FieldNamed(name).Some?
    ensures Edit(d, name, d.Get(FieldNamed(name).value)) == d
  {
  }

  /** Of two edits of the same input, the later one wins. */
  lemma EditLastWins(d: Details, name: string, v: string, w: string)
    ensures Edit(Edit(d, name, v), name, w) == Edit(d, name, w)
  {
  }

  /** Edits of two different inputs do not interfere, whichever comes first. */
  lemma EditsCommute(d: Details, n1: string, v1: string, n2: string, v2: string)
    requires n1 != n2
    ensures Edit(Edit(d, n1, v1), n2, v2) == Edit(Edit(d, n2, v2), n1, v1)
  {
  }

  // ---------------------------------------------------------------------------
  // The component state and what it renders

  /** A `File` from the file input; only its identity matters here. */
  datatype ImageFile = ImageFile(id: nat)

  /** A blob URL from `URL.createObjectURL`: an opaque, never-empty string. */
  datatype PreviewUrl = PreviewUrl(id: nat)

  /** A parsed key, held as the base58 text it was read from. */
  datatype PublicKey = PublicKey(base58: string)

  /** A snapshot of the six state hooks of the component. */
  datatype State = State(
    details: Details,
    loading: bool,
    image: Option<ImageFile>,
    preview: Option<PreviewUrl>,
    mintAddress: Option<string>,
    mintSignature: Option<string>)

  const INITIAL: State := State(DEFAULT_DETAILS, false, None, None, None, None)

  /** JavaScript truthiness of a nullable string: `null` and `""` are false. */
  predicate Truthy(v: Option<string>) {
    v.Some? && v.value != ""
  }

  /** The success condition: both mint results are truthy. */
  predicate Minted(s: State) {
    Truthy(s.mintAddress) && Truthy(s.mintSignature)
  }

  datatype Control = PreviewImage | FileInput | LoadingIndicator | MetadataForm | MintButton | SuccessPanel

  /** The controls through which a user can fire `uploadImage`, `onChange` or `onClickMintNft`. */
  predicate Interactive(c: Control) {
    c == FileInput || c == MetadataForm || c == MintButton
  }

  /** The render conditions of the component, one per block of markup. */
  predicate Shows(s: State, c: Control) {
    match c
    case PreviewImage => s.preview.Some?
    case FileInput => !Truthy(s.mintAddress) && !Truthy(s.mintSignature) && !s.loading
    case LoadingIndicator => s.loading
    case MetadataForm => s.preview.Some? && !Truthy(s.mintAddress) && !Truthy(s.mintSignature)
    case MintButton => s.preview.Some? && !Truthy(s.mintAddress) && !Truthy(s.mintSignature) && !s.loading
    case SuccessPanel => Minted(s)
  }

  /** On mount only the file input is shown. */
  lemma InitialScreen(c: Control)
    ensures Shows(INITIAL, c) <==> c == FileInput
  {
  }

  /** Once minted, the success panel is shown and nothing that uploads, edits or mints is. */
  lemma MintedIsTerminal(s: State, c: Control)
    requires Minted(s)
    ensures Shows(s, SuccessPanel)
    ensures Interactive(c) ==> !Shows(s, c)
  {
  }

  /**
   * When not loading, every interactive control is hidden exactly when either mint
   * result is truthy; the form and the file input go away together.
   */
  lemma ControlsHiddenIffResult(s: State)
    requires !s.loading
    ensures (!Shows(s, FileInput) && !Shows(s, MetadataForm) && !Shows(s, MintButton))
        <==> (Truthy(s.mintAddress) || Truthy(s.mintSignature))
  {
  }

  /** The Mint button appears only together with the preview, the form and the file input. */
  lemma MintButtonInContext(s: State)
    requires Shows(s, MintButton)
    ensures Shows(s, PreviewImage) && Shows(s, MetadataForm) && Shows(s, FileInput)
    ensures !Shows(s, SuccessPanel) && !Shows(s, LoadingIndicator)
  {
  }

  /** With no loading flag, the Mint button shows exactly when the form does. */
  lemma MintButtonIffForm(s: State)
    requires !s.loading
    ensures Shows(s, MintButton) <==> Shows(s, MetadataForm)
  {
  }

  // ---------------------------------------------------------------------------
  // Outcomes of the collaborators and the calls made to them

  /**
   * How the `fetch` of the upload endpoint settles. Any HTTP response, error
   * statuses included, resolves it and is discarded; only a network failure rejects.
   */
  datatype UploadOutcome = Responded | NetworkError(reason: string)

  /** How the mint service settles: the address and signature, or a rejection. */
  datatype MintOutcome = MintResolved(address: string, signature: string) | MintRejected(reason: string)

  /** How the promise of a handler settles; a rejection is left unhandled. */
  datatype Settlement = Fulfilled | Rejected(cause: RejectCause)
  datatype RejectCause = InvalidCollectionKey | MintFailed(reason: string)

  datatype Notification = Notification(kind: string, message: string, description: string)

  /** The arguments the mint service receives besides the connection and the wallet. */
  datatype MintRequest = MintRequest(
    network: string,
    name: string,
    symbol: string,
    description: string,
    collection: PublicKey,
    image: Option<ImageFile>)

  datatype Effect =
    | PreviewCreated(file: ImageFile, url: PreviewUrl)
    | UploadPosted(file: ImageFile)
    | Notified(notification: Notification)
    | MintCalled(request: MintRequest)

  const UPLOAD_FAILED: string := "Upload failed!"
  const WALLET_NOT_CONNECTED: Notification := Notification("error", "error", "Wallet not connected!")

  // ---------------------------------------------------------------------------
  // The component

  class Minter {
    var details: Details
    var loading: bool
    var image: Option<ImageFile>
    var preview: Option<PreviewUrl>
    var mintAddress: Option<string>
    var mintSignature: Option<string>
    /** Every preview, upload, notice and mint call made, oldest first. */
    var effects: seq<Effect>

    function View(): State
      reads this
    {
      State(details, loading, image, preview, mintAddress, mintSignature)
    }

    /**
     * What holds after every handler: the loading flag is down, the image and its
     * preview are chosen together, and the two mint results are stored together.
     */
    predicate Valid()
      reads this
    {
      !loading
      && (image.Some? <==> preview.Some?)
      && (mintAddress.Some? <==> mintSignature.Some?)
    }

    /** The component as it mounts. */
    constructor ()
      ensures Valid()
      ensures View() == INITIAL
      ensures effects == []
    {
      details := DEFAULT_DETAILS;
      loading := false;
      image := None;
      preview := None;
      mintAddress := None;
      mintSignature := None;
      effects := [];
    }

    /**
     * `uploadImage`: with no file chosen nothing happens. Otherwise the first file
     * becomes the image, its blob URL `url` the preview, the loading flag is lowered
     * before the upload is awaited, the upload is posted, and a network failure only
     * raises the "Upload failed!" notice.
     */
    method UploadImage(files: seq<ImageFile>, url: PreviewUrl, outcome: UploadOutcome)
      requires Valid()
      modifies this
      ensures Valid()
      ensures |files| == 0 ==> View() == old(View()) && effects == old(effects)
      ensures |files| > 0 ==> View() == old(View()).(image := Some(files[0]), preview := Some(url))
      ensures |files| > 0 && outcome.Responded? ==>
        effects == old(effects) + [PreviewCreated(files[0], url), UploadPosted(files[0])]
      ensures |files| > 0 && outcome.NetworkError? ==>
        effects == old(effects) + [PreviewCreated(files[0], url), UploadPosted(files[0]),
                                   Notified(Notification("error", UPLOAD_FAILED, outcome.reason))]
    {
      if |files| > 0 {
        loading := true;
        var uploadedImage := files[0];
        image := Some(uploadedImage);
        effects := effects + [PreviewCreated(uploadedImage, url)];
        preview := Some(url);
        loading := false;
        effects := effects + [UploadPosted(uploadedImage)];
        match outcome {
          case Responded =>
          case NetworkError(reason) =>
            loading := false;
            effects := effects + [Notified(Notification("error", UPLOAD_FAILED, reason))];
        }
      }
    }

    /** `onChange`: the input named `name` now holds `value`; nothing else changes. */
    method OnChange(name: string, value: string)
      requires Valid()
      modifies this`details
      ensures Valid()
      ensures details == Edit(old(details), name, value)
    {
      details := Edit(details, name, value);
    }

    /**
     * `onClickMintNft`: without a wallet key it only raises "Wallet not connected!".
     * Otherwise it parses the collection text with `parse` (a failure throws before
     * the mint service is called) and calls the mint service with the current name,
     * symbol, description, parsed collection and image; when that resolves, the
     * address and signature are stored. Both failures leave the promise rejected,
     * with no notice and no change of state.
     */
    method OnClickMintNft(walletConnected: bool, network: string, parse: string -> Option<PublicKey>, outcome: MintOutcome)
      returns (settled: Settlement)
      requires Valid()
      modifies this
      ensures Valid()
      ensures !walletConnected ==>
        settled == Fulfilled && View() == old(View()) && effects == old(effects) + [Notified(WALLET_NOT_CONNECTED)]
      ensures walletConnected && parse(old(details.mintCollection)).None? ==>
        settled == Rejected(InvalidCollectionKey) && View() == old(View()) && effects == old(effects)
      ensures walletConnected && parse(old(details.mintCollection)).Some? ==>
        effects == old(effects) + [MintCalled(MintRequest(network, old(details.mintName), old(details.mintSymbol),
                                     old(details.mintDescription), parse(old(details.mintCollection)).value, old(image)))]
      ensures walletConnected && parse(old(details.mintCollection)).Some? && outcome.MintResolved? ==>
        settled == Fulfilled
        && View() == old(View()).(mintAddress := Some(outcome.address), mintSignature := Some(outcome.signature))
      ensures walletConnected && parse(old(details.mintCollection)).Some? && outcome.MintRejected? ==>
        settled == Rejected(MintFailed(outcome.reason)) && View() == old(View())
    {
      if !walletConnected {
        effects := effects + [Notified(WALLET_NOT_CONNECTED)];
        return Fulfilled;
      }
      var collection := parse(details.mintCollection);
      if collection.None? {
        return Rejected(InvalidCollectionKey);
      }
      var request := MintRequest(network, details.mintName, details.mintSymbol, details.mintDescription,
                                 collection.value, image);
      effects := effects + [MintCalled(request)];
      match outcome {
        case MintResolved(address, signature) =>
          mintAddress := Some(address);
          mintSignature := Some(signature);
          settled := Fulfilled;
        case MintRejected(reason) =>
          settled := Rejected(MintFailed(reason));
      }
    }
  }

  /** The "Loading..." indicator is never on screen between handlers. */
  lemma LoadingNeverShown(m: Minter)
    requires m.Valid()
    ensures !Shows(m.View(), LoadingIndicator)
    ensures Shows(m.View(), MintButton) <==> Shows(m.View(), MetadataForm)
  {
  }

  /**
   * A full session: mount, choose a file, rename the token, mint with a connected
   * wallet, and read the explorer links off the success panel.
   */
  method WorkshopSession() returns (final: State, addressUrl: string, txUrl: string)
    ensures Minted(final) && !Shows(final, FileInput) && !Shows(final, MetadataForm) && !Shows(final, MintButton)
    ensures final.details == DEFAULT_DETAILS.(mintName := "Alpha")
    ensures final.mintAddress == Some("Addr1") && final.mintSignature == Some("Sig1")
    ensures Explorer.Parse(addressUrl) == Some(Explorer.Link(Explorer.Address, "Addr1", "devnet"))
    ensures Explorer.Parse(txUrl) == Some(Explorer.Link(Explorer.Tx, "Sig1", "devnet"))
  {
    var m := new Minter();
    m.UploadImage([ImageFile(1)], PreviewUrl(1), Responded);
    EditInput(m.details, MintName, "Alpha");
    m.OnChange(FieldName(MintName), "Alpha");
    assert m.details == DEFAULT_DETAILS.(mintName := "Alpha");
    var settled := m.OnClickMintNft(true, "devnet", s => Some(PublicKey(s)), MintResolved("Addr1", "Sig1"));
    final := m.View();
    assert Minted(final);
    addressUrl := Explorer.AddressUrl(final.mintAddress.value, "devnet");
    txUrl := Explorer.TxUrl(final.mintSignature.value, "devnet");
    Explorer.ParseUrl(Explorer.Link(Explorer.Address, "Addr1", "devnet"));
    Explorer.ParseUrl(Explorer.Link(Explorer.Tx, "Sig1", "devnet"));
  }
}
