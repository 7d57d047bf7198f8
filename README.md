# NFT minting form — Dafny model

This project models the client-side state of the minting form of a Solana NFT
workshop app (`src/components/NftMinter.tsx`). The form lets a user pick an image,
edit four metadata fields (name, symbol, description, collection key), and mint
with a connected wallet. It then shows the mint address and transaction
signature as links to the Solana explorer.

- `wrappers.dfy`: `Option`, which stands for JavaScript's `null`.
- `nft_minter.dfy` (module `NftMinter`):
  - the metadata record and its field editor (`Details`, `Edit`);
  - the six state hooks as the fields of class `Minter`;
  - the three event handlers `UploadImage`, `OnChange` and `OnClickMintNft`;
  - the render conditions (`Shows`) and what follows from them.
- `explorer.dfy` (module `Explorer`): the two explorer links. `Parse` is an
  independent reader of links of exactly this shape. The model proves that every
  link built from an identifier without `?` reads back as what it was built from.

Collaborators are not modelled inside. These are the upload endpoint, the mint
service, the toast, `URL.createObjectURL`, base58 key parsing and the wallet.
Each handler receives their answer as a parameter:
- whether a file was chosen;
- the blob URL;
- how the upload settled;
- whether the wallet has a key;
- the key parser;
- how the mint settled.

Every call a handler makes to the upload endpoint, the mint service, the toast or
`URL.createObjectURL` is appended to the `effects` log: previews created, uploads
posted, notices raised, mint calls made. The key parse is not logged; only its
result, through `parse`, decides what happens. The methods' postconditions state
the whole new state and the whole new log.

The model follows the code, not an idealised workflow:
- There are no Uploading/Ready/Failed phases.
- The upload response is discarded, so there is no content reference.
- `loading` is lowered before the upload is awaited. `Minter.Valid()` therefore
  keeps `loading` false after every handler, and `LoadingNeverShown` proves that
  the "Loading..." block never appears.
- A mint rejection, or a collection text that does not parse, leaves the
  handler's promise rejected. Nothing is caught, no notice is raised and no state
  changes. The method returns `Rejected(...)` to say so.
- Without a wallet key the handler raises the "Wallet not connected!" notice and
  returns normally. It does not fail.
- Preview URLs are never revoked.

The controls are hidden by JavaScript truthiness tests on `mintAddress` and
`mintSignature`. Assuming these are strings, the empty string counts as absent
(`Truthy`).

## Model

| member | source | states |
|---|---|---|
| NftMinter.Minter.constructor | src/components/NftMinter.tsx:9-32 | on mount the details are the four workshop defaults, `loading` is false, image, preview, address and signature are null, and no collaborator has been called |
| NftMinter.InitialScreen | src/components/NftMinter.tsx:82-168 | in the initial state exactly one control is rendered: the file input |
| NftMinter.FieldNamed | src/components/NftMinter.tsx:98-147 | an input name maps to the field whose `name` attribute it is, and to none exactly when no input has that name |
| NftMinter.Details.With | src/components/NftMinter.tsx:55 | replacing a field sets that field to the value and leaves the other three as they were |
| NftMinter.Edit | src/components/NftMinter.tsx:54-56 | after `onChange(name, value)` each field equals `value` if its input is called `name`, else its old value; an unknown name changes no field |
| NftMinter.EditInput | src/components/NftMinter.tsx:98-147 | each of the four inputs edits exactly its own field |
| NftMinter.EditUnchangedValue | src/components/NftMinter.tsx:54-56 | entering the value a field already holds leaves the record unchanged |
| NftMinter.EditLastWins | src/components/NftMinter.tsx:54-56 | two edits of the same input equal the later edit alone |
| NftMinter.EditsCommute | src/components/NftMinter.tsx:54-56 | edits of two different inputs give the same record in either order |
| NftMinter.Minter.OnChange | src/components/NftMinter.tsx:54-56 | the details become the edited record; image, preview, loading, results and the effect log are unchanged |
| NftMinter.Minter.UploadImage | src/components/NftMinter.tsx:34-52 | no file: nothing changes and nothing is called; a file: it becomes the image, its blob URL the preview, `loading` ends false, details and results are unchanged, and the log gains the preview, the upload and on a network failure only the "Upload failed!" notice |
| NftMinter.Minter.OnClickMintNft | src/components/NftMinter.tsx:58-77 | no wallet key: only the "Wallet not connected!" notice and no state change; unparsable collection: rejected, mint service not called, nothing changes; otherwise the mint service gets exactly the current name, symbol, description, parsed collection and image, success stores exactly the returned address and signature, and a rejection changes nothing |
| NftMinter.LoadingNeverShown | src/components/NftMinter.tsx:36-47 | between handlers the loading indicator is never rendered, so the Mint button shows exactly when the form does |
| NftMinter.MintedIsTerminal | src/components/NftMinter.tsx:85-168 | once both results are non-empty strings, the success panel shows and no control that could upload, edit or mint is rendered |
| NftMinter.ControlsHiddenIffResult | src/components/NftMinter.tsx:85-153 | when not loading, the file input, form and Mint button are all hidden if and only if a mint result is present |
| NftMinter.MintButtonInContext | src/components/NftMinter.tsx:82-153 | the Mint button is only rendered together with the preview, the form and the file input, and never beside the success panel or the loading indicator |
| NftMinter.MintButtonIffForm | src/components/NftMinter.tsx:92-153 | when not loading, the Mint button shows exactly when the metadata form does |
| NftMinter.WorkshopSession | src/components/NftMinter.tsx:19-192 | mount, upload, rename and a successful mint end in the success state with the edited details and results, and with links that read back as `address/Addr1` and `tx/Sig1` on the chosen network |
| Explorer.AddressUrl | src/components/NftMinter.tsx:179 | the address link starts with `https://explorer.solana.com/address/`, and for an address without `?` it reads back as that address and network |
| Explorer.TxUrl | src/components/NftMinter.tsx:192 | the transaction link starts with `https://explorer.solana.com/tx/`, and for a signature without `?` it reads back as that signature and network |
| Explorer.ParseUrl | src/components/NftMinter.tsx:179-192 | for an identifier without `?`, each link reads back as its page kind, its address or signature, and its `cluster` network |
| Explorer.UrlInjective | src/components/NftMinter.tsx:179-192 | two links are equal exactly when they have the same kind, identifier and network |
| Explorer.AddressAndTxLinksDiffer | src/components/NftMinter.tsx:179-192 | an address link never equals a transaction link |

## Left out

- JSX markup, CSS classes, the `next/image` element and the React hooks: presentation only. Only the render conditions are kept, as `Shows`.
- The body of `fetch("/api/upload")`: the request is logged as `UploadPosted`, and how it settles (`Responded`, or `NetworkError`) is a parameter. HTTP error statuses resolve the fetch and are discarded, as in the code.
- `mintWithMetaplexJs` (`utils/metaplex`) is not part of this model: the call is logged with its arguments, and how it settles is a parameter. The `connection` and `wallet` objects it also receives are not recorded.
- `notify` is logged as a `Notified` effect. `console.log` is left out: it is a developer console write that nothing reads.
- `PublicKey` base58 parsing and `toBase58` come from a foreign library. Parsing is the `parse` parameter of `OnClickMintNft`, and the default collection is held as the text `toBase58` returns for it.
- `URL.createObjectURL`: the handle is a parameter of `UploadImage`. The code never revokes handles, so no release is modelled.
- The wallet is modelled only by whether it has a `publicKey`; the network is a string parameter.
- React batching and async interleavings: each handler is atomic, with its collaborators' answers given. The code has no staleness guard or cancellation, so none is modelled. The intermediate `loading = true` is never rendered.
- `event.target.files` being `null` and being empty are the same case: an empty sequence.
- In JavaScript, an `onChange` name outside the four inputs adds an extra key to the record. Nothing reads that key, so the model keeps only the four fields.
