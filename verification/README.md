# Verified model of the TPM duplication codec, the PKCS#11 key objects and the TPM signing plugin

The project models three parts of the repository and proves what they promise.

**The TPM 2.0 codec and the duplication blob** (`tpm-util/duplicate`). `WireGrammar` describes the
wire format as a grammar with one parser and one printer and proves the laws between them for every
grammar. `TpmTypes` gives the structures of public and sensitive areas, `Cursor` the buffer, position
and budget that all routines share. `Layouts` writes out, by number and byte by byte, which values every
field may have, with which code others are refused, and what areas look like on the wire, and shows
that the grammar says the same. `Unmarshal` and `Marshal` are the routines themselves, imperative
as in the C code, each proved against the grammar for every input and every budget; `Codec` and
`Converters` draw the conclusions about pairs of them, and `PcrSelection` does all of this for lists.
`Cfb` and `Kdf` are the two cryptographic loops, over an abstract block function and an abstract HMAC,
each with its meaning byte by byte. `Duplication` composes everything into the blob of section 23.3 of
part 1 of the TPM 2.0 Library and shows that an import, written out from that section and from section
5.1 of SP 800-108 on its own, accepts exactly the blobs that are made.

**PKCS#11 key objects** (`SoftHSMv2/src/lib`). `Attributes` and `KeySchema` hold the attribute tables
of secret and private keys with their footnotes (table 10, section 4.2 of PKCS#11 v2.40),
`UpdateRules` what one write does, `Objects` transactions and the saving of a template, `KeyCalls` the
calls as functions of the state. `P11Objects` and `SoftHsm` are the methods themselves, proved
against those functions. `KeyPolicy`, `Runs` and `OneWay` are about protection over whole runs,
`Decoding`, `Agreement`, `Storage` and `Plaintexts` about what the stored bytes stand for, `CheckValues`
about check values, `Steps` about the calls as steps of a run, and `UnwrapTemplates` about unwrap
templates. `Tables` reads the attribute tables by footnote, `Acceptance` says when one write succeeds and what
it stores, `Completeness` and `Generation` when whole calls succeed and how they are refused otherwise, `Readings`
what the bytes of a template mean. `Makers` is about what the call that made a key says of it for good (trust,
origin, history), over whole runs, and `Wrapping` about which keys may be wrapped under which.
`EcPoint`, `CipherSizes` and `DecryptSizes` are arithmetic kernels of the same library.

**The TPM plugin** (`TPM2-Plugin/lib`). `SignSessions` is the table of signing sessions under every
interleaving of calls, `HashChunks` the hashing of a message in pieces.

What stands for code or data outside the repository's logic is a parameter: AES, SHA-256 and HMAC;
the algorithms and structure sizes a build of the codec fixes (`TpmTypes.Config`; the TSS header that
defines them is not part of this model); the random bytes of a seed or an inner key; the token's
encryption, with the vector it draws, and decryption; how much a cipher hands out of what it has been
given (`DecryptSizes.Handed`, as OpenSSL's EVP routines do); the access checks; key check values; the memory
behind the pointers of a wrapping template.

Results that differ from what the documentation suggests, each proved with its exact condition or a
concrete input:

- `KDFa` never increments its counter, so it is SP 800-108 counter mode for every HMAC exactly up to
  one block of 32 bytes (`Kdf.CounterModeExactly`), and its loop ends exactly up to 1024 bytes
  (`Kdf.LoopEnds`).
- The initialization vector is copied up to its first zero byte, so it arrives whole exactly when only
  zeros follow (`Cfb.WholeIv`).
- Session objects have no transactions, so a template that fails half-way is undone exactly on token
  objects and on objects that cannot be modified (`Objects.UndoneExactly`).
- A token object whose template was incomplete is left in its transaction, and answers every later call
  that saves a template with CKR_GENERAL_ERROR (`Objects.IncompleteStaysOpen`).
- What is taken for an encoded EC point is an octet string exactly when it has at most eight length
  octets, since only eight are compared (`EcPoint.RecognisedExactly`, `EcPoint.NineOctets`). Wrapping an
  EC point again is harmless exactly when it was taken as encoded or does not have 63, 95 or 130 bytes
  (`EcPoint.IdempotentExactly`, `EcPoint.WrappedTwice`).
- The feedback value returned by one CFB call and passed to another is copied up to its first zero byte
  too, so two calls do what one does exactly when it arrives whole (`Cfb.CfbInTwo`).
- The number of blocks of a part goes through an `int`, so the lengths announced for the parts of a
  message agree with that of the whole exactly when no part completes 2^31 blocks, or the mode is a
  stream mode, or the message is refused (`CipherSizes.ChunkingIndependent`, `CipherSizes.TooManyBlocks`).
- When decrypting in padding mode, an empty first part is announced with almost 2^64 bytes, and so is the
  end of an empty message; otherwise announced lengths are right exactly as far as an `int` can count
  (`DecryptSizes.DecryptChunking`, `DecryptSizes.EmptyFirst`).
- Starting a signing session claims every free slot, so a second session gets none
  (`SignSessions.ClaimedExactly`, `SignSessions.SecondRefused`). The handle of an active session is given
  out again exactly when the sequence has been reset since it was started and as many sessions have been
  started since as its handle counts (`SignSessions.SharedExactly`); a run leads there
  (`SignSessions.ResetMixesSessions`).
- Dates are stored as they come, but decrypted on private objects, so a date that was set is handed out
  exactly when the object is public or the date is empty (`Plaintexts.DatesExactly`).
- Key material whose encryption fails is stored as nothing, without an error (`Plaintexts.KeyHolds`).
- The check value of a secret key is that of its value over a whole run exactly when every call that makes
  a key writes it so (`CheckValues.CheckValuesExactly`). Deriving computes it before the secret is cut
  to the length of the key (`CheckValues.DeriveConsistent`, `CheckValues.LongSecret`), and unwrapping compares
  it with that of a value that is still empty (`CheckValues.UnwrapConsistent`).
- Two stack buffers are written with budgets that reach past their ends (`Converters.PublicTo2B`,
  `Duplication.FillInnerData`): for every well-formed area the bytes past the end are not touched.

A run, in `Runs`, starts from an empty store, and its history holds every state that the calls commit:
for generating, deriving, unwrapping and copying both commits. What the init chain writes to a new object
before its template is saved, and what creating an object commits before it clears both history flags,
are not part of the history. An object that a failing creation leaves behind is in the store and obeys the
history invariant; the storage invariant is about objects whose creation succeeded and their copies.
`Steps` shows that generating, deriving and unwrapping with the library's own attribute tables are steps
of a run; creating, copying, setting and destroying are by definition. "The token keeps its key" means that
every call either decrypts with that key or, when nobody is logged in, fails to decrypt (`Storage.Keyed`).

## Main results

- `WireGrammar.AcceptedExactly`, `WireGrammar.PrefixFree`, `WireGrammar.Truncated`: the laws of the codec, to
  which every routine is tied; `Codec.PublicThereAndBack` and its companions for pairs of routines.
- `Layouts.PublicExactly`, `Unmarshal.UnmarshalPublic`, `Unmarshal.UnmarshalSensitive`: what is accepted, by numbers
  and bytes, with the limit of each type.
- `Duplication.ImportExactly`, `Duplication.CreateDuplicationBlob`: an import written on its own accepts exactly the
  blobs made.
- `Cfb.DecryptEncrypt`, `Cfb.ByteMeaning`, `Cfb.Aes128Cfb`, `Cfb.CfbInTwo`; `Kdf.CounterModeExactly`, `Kdf.LoopEnds`.
- `Runs.HistoryInvariant`, `Runs.HistoryFlagsExactly`: the history flags tell the truth over every run.
- `OneWay.NeverRevealed`, `OneWay.NeverWrapped`: protection is one-way over every run.
- `Makers.TrustedByOfficer`, `Makers.LocalExactly`, `Makers.NeverClaimed`: who made a trusted key, and what a key
  says of its origin, over every run.
- `Wrapping.WrapExactly`, `Wrapping.WrappedUnderOfficers`: when a key may be wrapped, and under which keys over
  every run.
- `Acceptance.UpdateExactly`, `Completeness.CreateExactly`, `Completeness.SetExactly`, `Completeness.CopyExactly`,
  `Generation.AesExactly`, `Generation.DeriveExactly`, `Generation.UnwrapExactly`: exactly which writes and calls succeed.
- `Plaintexts.StorageInvariant`, `Plaintexts.ReadsLastWritten`: what is stored decodes to what was written.
- `CheckValues.CheckValuesExactly`: when check values are those of their keys.
- `Objects.UndoneExactly`, `Objects.SavedExactly`: atomicity of templates.
- `UnwrapTemplates.TemplateEnforced`, `UnwrapTemplates.StringEnforced`: unwrap templates.
- `EcPoint.RecognisedExactly`, `EcPoint.IdempotentExactly`; `CipherSizes.ChunkingIndependent`;
  `DecryptSizes.DecryptChunking`.
- `SignSessions.SignedExactly`, `SignSessions.SharedExactly`, `SignSessions.SecondRefused`;
  `HashChunks.HashComputeData`.

## Model

| member | source | states |
|---|---|---|
| `WireGrammar.RoundTrip` | tpm-util/duplicate/marshal.c:4110-4148 | every conforming structure is read back from its encoding whatever bytes follow, and reading stops exactly at them |
| `WireGrammar.Canonical` | tpm-util/duplicate/marshal.c:4152-4187 | whatever is accepted conforms to the grammar, and its encoding is exactly the bytes consumed, recomputed sizes included |
| `WireGrammar.AcceptedExactly` | tpm-util/duplicate/marshal.c:4110-4133 | bytes are accepted as a structure if and only if they begin with the encoding of that conforming structure |
| `WireGrammar.PrefixFree` | tpm-util/duplicate/marshal.c:4250-4280 | no encoding of a grammar is a proper prefix of another |
| `WireGrammar.Truncated` | tpm-util/duplicate/marshal.c:21-133 | every proper prefix of an accepted encoding gives TPM_RC_INSUFFICIENT and no other error |
| `WireGrammar.Budget` | tpm-util/duplicate/marshal.c:4694-4707 | on every outcome the cursor stays within the bytes available, and the budget is overdrawn exactly when bytes are missing, by at most one primitive |
| `TpmTypes.PublicTreeInjective` | tpm-util/duplicate/marshal.c:4135-4148 | two clean public areas with the same fields on the wire are the same structure |
| `TpmTypes.SensitiveTreeInjective` | tpm-util/duplicate/marshal.c:4269-4280 | two sensitive areas with the same fields on the wire are the same structure |
| `Unmarshal.UnmarshalUInt8` | tpm-util/duplicate/marshal.c:22-31 | one byte, or INSUFFICIENT with the budget charged and the cursor unmoved |
| `Unmarshal.UnmarshalUInt16` | tpm-util/duplicate/marshal.c:58-67 | a big-endian 16-bit integer, or INSUFFICIENT with the budget charged and the cursor unmoved |
| `Unmarshal.UnmarshalUInt32` | tpm-util/duplicate/marshal.c:91-100 | a big-endian 32-bit integer, or INSUFFICIENT with the budget charged and the cursor unmoved |
| `Unmarshal.UnmarshalChecked16` | tpm-util/duplicate/marshal.c:870-903 | a 16-bit identifier and the code of its own check when it is not in the table compiled in |
| `Unmarshal.UnmarshalObjectAttributes` | tpm-util/duplicate/marshal.c:388-399 | object attributes, refused exactly when a reserved bit is set |
| `Unmarshal.UnmarshalSymKeyBits` | tpm-util/duplicate/marshal.c:2366-2392 | the key bits of the algorithm selected, or the hash of XOR; nothing for ALG_NULL, and SELECTOR for every other selector |
| `Unmarshal.UnmarshalSymMode` | tpm-util/duplicate/marshal.c:2426-2451 | the mode of the algorithm selected; nothing for XOR and ALG_NULL, and SELECTOR for every other selector |
| `Unmarshal.UnmarshalBytes` | tpm-util/duplicate/marshal.c:4695-4707 | byte by byte: all bytes, or as many as there are and one more charged |
| `Unmarshal.UnmarshalBlob` | tpm-util/duplicate/marshal.c:1288-1303 | a sized buffer: empty accepted, over the limit SIZE, short INSUFFICIENT |
| `Unmarshal.UnmarshalSymDef` | tpm-util/duplicate/marshal.c:2504-2517 | a symmetric definition; with ALG_NULL nothing follows |
| `Unmarshal.UnmarshalAsymDetails` | tpm-util/duplicate/marshal.c:3051-3100 | the details an asymmetric scheme has: none, a hash, or a hash and a count; SELECTOR, with nothing read, for a scheme not compiled in |
| `Unmarshal.UnmarshalAsymScheme` | tpm-util/duplicate/marshal.c:3202-3212 | an RSA or ECC scheme with its details |
| `Unmarshal.UnmarshalKdfScheme` | tpm-util/duplicate/marshal.c:3020-3030 | a key derivation scheme and its hash |
| `Unmarshal.UnmarshalKeyedHashDetails` | tpm-util/duplicate/marshal.c:2746-2764 | the details a keyed hash scheme has: a hash, a hash and a key derivation function, or none; SELECTOR, with nothing read, for a scheme not compiled in |
| `Unmarshal.UnmarshalKeyedHashScheme` | tpm-util/duplicate/marshal.c:2790-2800 | a keyed hash scheme with the details it selects |
| `Unmarshal.UnmarshalRsaParms` | tpm-util/duplicate/marshal.c:3967-3983 | RSA parameters, stopping at the first field that fails |
| `Unmarshal.UnmarshalEccParms` | tpm-util/duplicate/marshal.c:4004-4020 | ECC parameters, stopping at the first field that fails |
| `Unmarshal.UnmarshalPublicParms` | tpm-util/duplicate/marshal.c:4040-4063 | the parameters the object type selects; SELECTOR, with nothing read, for a type not compiled in |
| `Unmarshal.UnmarshalEccPoint` | tpm-util/duplicate/marshal.c:3419-3429 | both coordinates of a point |
| `Unmarshal.UnmarshalPublicId` | tpm-util/duplicate/marshal.c:3902-3925 | the unique field the object type selects; SELECTOR, with nothing read, for a type not compiled in |
| `Unmarshal.UnmarshalPublic` | tpm-util/duplicate/marshal.c:4111-4133 | reads exactly what the grammar of TPMT_PUBLIC (section 12.2.4 of part 2) finds: code, cursor, budget and structure; and succeeds if and only if what is available begins with the bytes, as the standard lays them out, of an area whose every field has a value of its table |
| `Unmarshal.UnmarshalPublic2B` | tpm-util/duplicate/marshal.c:4153-4171 | a sized public area: empty or of another size than stated is refused with SIZE, and the size on success is the length of the encoding |
| `Unmarshal.UnmarshalComposite` | tpm-util/duplicate/marshal.c:4197-4220 | the buffer a sensitive type selects, SIZE if it is longer than its limit (RSA half of MAX_RSA_KEY_BYTES, ECC MAX_ECC_KEY_BYTES, KEYEDHASH MAX_SYM_DATA, SYMCIPHER MAX_SYM_KEY_BYTES), SELECTOR exactly for a type not compiled in |
| `Unmarshal.UnmarshalSensitive` | tpm-util/duplicate/marshal.c:4251-4267 | reads exactly what the grammar of TPMT_SENSITIVE (section 12.3.2.4 of part 2) finds; and succeeds if and only if what is available begins with the bytes of an area of a type compiled in whose secret is within the limit of that type |
| `Unmarshal.UnmarshalSensitive2B` | tpm-util/duplicate/marshal.c:4285-4303 | a sized sensitive area; an empty one is accepted and leaves the structure alone |
| `Marshal.MarshalUInt8` | tpm-util/duplicate/marshal.c:34-48 | writes the byte if the budget allows, charges it, returns 1 |
| `Marshal.MarshalUInt16` | tpm-util/duplicate/marshal.c:70-84 | writes both bytes or none, charges them, returns 2 |
| `Marshal.MarshalUInt32` | tpm-util/duplicate/marshal.c:103-117 | writes all four bytes or none, charges them, returns 4 |
| `Marshal.MarshalBytes` | tpm-util/duplicate/marshal.c:4710-4720 | writes as many bytes as the budget allows, charges all, returns their number |
| `Marshal.MarshalBlob` | tpm-util/duplicate/marshal.c:1306-1317 | size and bytes; every byte outside what was written is unchanged |
| `Marshal.MarshalSymDef` | tpm-util/duplicate/marshal.c:2520-2529 | the encoding within the budget and its length |
| `Marshal.MarshalAsymScheme` | tpm-util/duplicate/marshal.c:3103-3152 | the scheme and the details it selects, within the budget, and the length |
| `Marshal.MarshalKdfScheme` | tpm-util/duplicate/marshal.c:3033-3041 | the scheme and the hash it selects, within the budget, and the length |
| `Marshal.MarshalKeyedHashScheme` | tpm-util/duplicate/marshal.c:2803-2811 | the scheme and the details it selects, within the budget, and the length |
| `Marshal.MarshalRsaParms` | tpm-util/duplicate/marshal.c:3986-3996 | the encoding within the budget and its length |
| `Marshal.MarshalEccParms` | tpm-util/duplicate/marshal.c:4023-4033 | the encoding within the budget and its length |
| `Marshal.MarshalPublicParms` | tpm-util/duplicate/marshal.c:4066-4089 | the parameters the object type selects |
| `Marshal.MarshalPublicId` | tpm-util/duplicate/marshal.c:3928-3951 | the unique field the object type selects |
| `Marshal.MarshalPublic` | tpm-util/duplicate/marshal.c:4136-4148 | the encoding as far as the budget reaches, nothing else touched, and the length of the whole as a UINT16 |
| `Marshal.MarshalSensitive` | tpm-util/duplicate/marshal.c:4270-4280 | the encoding as far as the budget reaches, nothing else touched, and the length of the whole as a UINT16 |
| `Marshal.MarshalPublic2B` | tpm-util/duplicate/marshal.c:4174-4187 | payload first and size field back-patched: exact memory, cursor and budget afterwards, for every budget |
| `Marshal.BackPatchMeaning` | tpm-util/duplicate/marshal.c:4173-4187 | back-patching the size gives the bytes of size then payload when the budget covers both, and otherwise leaves the size field as it was |
| `Cursors.CountAgreement` | tpm-util/duplicate/marshal.c:4135-4187 | with budget enough, cursor advance and budget decrease are the length of the encoding, the value returned is that in 16 bits, and the buffer holds the encoding |
| `Converters.PublicCounts` | tpm-util/duplicate/marshal.c:4135-4148 | in builds whose public areas 16 bits can count, the value returned is the cursor advance and the budget decrease |
| `Converters.SensitiveCounts` | tpm-util/duplicate/marshal.c:4269-4280 | the same for sensitive areas |
| `Codec.PublicThereAndBack` | tpm-util/duplicate/marshal.c:4110-4148 | unmarshalling what was marshalled returns the same public area and stops where marshalling stopped |
| `Codec.SensitiveThereAndBack` | tpm-util/duplicate/marshal.c:4250-4280 | unmarshalling what was marshalled returns the same sensitive area and stops where marshalling stopped |
| `Codec.PublicBackAndThere` | tpm-util/duplicate/marshal.c:4110-4148 | what unmarshalling accepts is well formed and marshals to exactly the bytes consumed |
| `Codec.Public2BBackAndThere` | tpm-util/duplicate/marshal.c:4152-4187 | a sized public area that is accepted marshals to the bytes consumed, with the recomputed size prefix |
| `Codec.SensitiveBackAndThere` | tpm-util/duplicate/marshal.c:4250-4280 | what unmarshalling accepts is well formed and marshals to exactly the bytes consumed |
| `Codec.CutShort` | tpm-util/duplicate/marshal.c:21-133 | an encoding cut short anywhere gives INSUFFICIENT |
| `Codec.WithinBudget` | tpm-util/duplicate/marshal.c:4694-4707 | the cursor advances by at most the initial size, and the size is negative afterwards exactly on INSUFFICIENT |
| `Codec.AreasNarrow` | tpm-util/duplicate/marshal.c:4110-4306 | the budget law applies to public and sensitive areas, plain and sized, of every build |
| `Layouts.PublicExactly` | tpm-util/duplicate/marshal.c:4110-4148 | a public area is well formed if and only if every field has a value of its own table, written out by number, and it is then encoded as its fields one after the other, big-endian |
| `Layouts.SensitiveExactly` | tpm-util/duplicate/marshal.c:4197-4248 | a sensitive area is well formed if and only if its type is compiled in, and authorization, seed and secret are within their limits, the last that of the type |
| `Layouts.SensitiveLayout` | tpm-util/duplicate/marshal.c:4269-4280 | a sensitive area is encoded as type, authorization, seed and secret, each buffer behind its size |
| `Layouts.SecretRefused` | tpm-util/duplicate/marshal.c:3345-3360 | an area whose secret is over the limit of its type is refused with SIZE, whatever follows |
| `Layouts.HeadRefused` | tpm-util/duplicate/marshal.c:4110-4133 | the first field of a public area that is wrong decides the code: type, name algorithm, attributes, policy |
| `Layouts.FieldCodes` | tpm-util/duplicate/marshal.c:3869-3895 | the code each field answers with when its value is not in its table: types, hashes, symmetric algorithms, key bits and modes |
| `Layouts.SchemeCodes` | tpm-util/duplicate/marshal.c:3320-3336 | the same for schemes, RSA key bits (1024 or 2048) and curves |
| `PcrSelection.UnmarshalSelect` | tpm-util/duplicate/marshal.c:1582-1590 | a count within its limits, VALUE otherwise, and as many bytes |
| `PcrSelection.UnmarshalSelection` | tpm-util/duplicate/marshal.c:1574-1591 | a supported hash and the selection for it |
| `PcrSelection.UnmarshalSelections` | tpm-util/duplicate/marshal.c:4637-4649 | as many selections as counted, up to the first that fails |
| `PcrSelection.UnmarshalList` | tpm-util/duplicate/marshal.c:1927-1939 | reads exactly what the grammar of the list finds; too large a count is refused with SIZE |
| `PcrSelection.MarshalSelection` | tpm-util/duplicate/marshal.c:1594-1603 | hash, count and bytes within the budget |
| `PcrSelection.MarshalSelections` | tpm-util/duplicate/marshal.c:4652-4662 | the selections one after the other within the budget, and their total length |
| `PcrSelection.MarshalList` | tpm-util/duplicate/marshal.c:1942-1950 | count and selections within the budget, and the length of the whole |
| `PcrSelection.ListConforms` | tpm-util/duplicate/marshal.c:1926-1939 | a list is well formed if and only if it is not too long and every selection names a supported hash and has a size within the limits |
| `PcrSelection.ListThereAndBack` | tpm-util/duplicate/marshal.c:1926-1952 | unmarshalling a list that was marshalled returns the same list and stops where marshalling stopped |
| `PcrSelection.ListBackAndThere` | tpm-util/duplicate/marshal.c:1926-1952 | a list that is accepted is well formed and marshals to exactly the bytes consumed |
| `PcrSelection.ListLayout` | tpm-util/duplicate/marshal.c:1941-1952 | a list is encoded as its count and, for each selection, hash, count and bytes |
| `PcrSelection.ListCodes` | tpm-util/duplicate/marshal.c:1573-1592 | too many selections are refused with SIZE, a hash that is not supported with HASH, a count outside the limits with VALUE |
| `PcrSelection.ListNarrow` | tpm-util/duplicate/marshal.c:1926-1939 | the budget law applies to lists of every build |
| `Converters.PublicLength` | tpm-util/duplicate/marshal.c:4135-4148 | the encoding of a well-formed public area is not empty and at most as long as its parts can be |
| `Converters.PublicTo2B` | tpm-util/duplicate/tpm_duplication_aux.c:28-42 | for well-formed areas: success, the same area, size equal to the marshalled length, and the two bytes past the stack buffer untouched |
| `Converters.PublicFrom2B` | tpm-util/duplicate/tpm_duplication_aux.c:74-84 | for well-formed areas: success and the same area, so the pair of conversions is the identity |
| `Converters.SensitiveTo2B` | tpm-util/duplicate/tpm_duplication_aux.c:44-60 | for well-formed areas: success, the same area, size equal to the marshalled length |
| `Converters.SensitiveFrom2B` | tpm-util/duplicate/tpm_duplication_aux.c:62-73 | for well-formed areas: success and the same area |
| `Converters.HashPublic` | tpm-util/duplicate/tpm_duplication_aux.c:92-101 | hashes the marshalled area without its size field |
| `Converters.GetName` | tpm-util/duplicate/tpm_duplication_aux.c:87-102 | the name is the hash algorithm and the digest of the marshalled public area, 34 bytes |
| `Bytes.XorMeaning` | tpm-util/duplicate/crypto_aux.c:105-109 | the mixing of two bytes is the byte whose bits are one exactly where theirs differ, and no other |
| `Cfb.ByteMeaning` | tpm-util/duplicate/crypto_aux.c:94-111 | every byte of the result, apart from any loop: the exclusive or of the byte of the input with that of the block function of the ciphertext block before, or of the feedback value, both ways (section 6.3 of SP 800-38A) |
| `Cfb.FeedbackMeaning` | tpm-util/duplicate/crypto_aux.c:94-111 | the feedback value left is the last ciphertext block, filled up with zeros |
| `Cfb.DecryptEncrypt` | tpm-util/duplicate/crypto_aux.c:91-113 | decryption undoes encryption for every length, key, feedback value and block function, and both leave the same feedback value (section 6.3 of SP 800-38A) |
| `Cfb.EncryptDecrypt` | tpm-util/duplicate/crypto_aux.c:91-113 | encryption undoes decryption |
| `Cfb.EncryptAppend` | tpm-util/duplicate/crypto_aux.c:94-111 | whole blocks and what follows can be encrypted in two calls, the second from the feedback value of the first |
| `Cfb.ArrivesExactly` | tpm-util/duplicate/crypto_aux.c:91 | what is copied arrives whole if and only if everything behind a zero byte stands there already |
| `Cfb.WholeIv` | tpm-util/duplicate/crypto_aux.c:91 | over zeros, the initialization vector arrives whole if and only if nothing but zeros follows its first zero byte |
| `Cfb.CipherBlocks` | tpm-util/duplicate/crypto_aux.c:94-111 | the loop over blocks computes CFB encryption or decryption, also when input and output are one buffer |
| `Cfb.Aes128Cfb` | tpm-util/duplicate/crypto_aux.c:77-115 | the routine computes CFB from the effective initialization vector, in place or not, and returns the next feedback value if asked; the first block is the exclusive or of the input, byte by byte, with the block function of key and vector |
| `Cfb.ChainedExactly` | tpm-util/duplicate/crypto_aux.c:77-115 | two passes, on whole blocks and on what follows, are one pass if and only if the block function gives the same for the feedback value copied as for the one left, as far as the first block goes |
| `Cfb.CfbInTwo` | tpm-util/duplicate/crypto_aux.c:77-115 | two calls, the second with the feedback value of the first, do what one call does if that value arrives whole in the second buffer, and, with an injective block function and a block or more, only then |
| `Kdf.InputIs` | tpm-util/duplicate/crypto_aux.c:149-190 | the message that is authenticated: counter, label, a zero byte, both contexts and the number of bits, every byte in its place (section 5.1 of SP 800-108) |
| `Kdf.SwapMeaning` | tpm-util/duplicate/crypto_aux.c:118-124 | swapping twice is the identity, and a swapped integer stored little-endian is the integer in network order |
| `Kdf.OneBlock` | tpm-util/duplicate/crypto_aux.c:127-217 | a request of at most 256 bits is SP 800-108 counter mode for every HMAC (section 5.1) |
| `Kdf.CounterModeExactly` | tpm-util/duplicate/crypto_aux.c:176-206 | the result is counter mode for every HMAC if and only if at most 32 bytes are requested, because the counter stays at one |
| `Kdf.MoreBlocksDiffer` | tpm-util/duplicate/crypto_aux.c:176-206 | an HMAC for which a longer request differs from counter mode in its 33rd byte |
| `Kdf.ConcatSizedByteBuffer` | tpm-util/duplicate/util.c:20-35 | appends all of a buffer, or nothing when the total would pass 1024 bytes |
| `Kdf.LoopEnds` | tpm-util/duplicate/crypto_aux.c:178-206 | the collecting loop ends if and only if at most 1024 bytes are requested |
| `Kdf.KDFa` | tpm-util/duplicate/crypto_aux.c:127-217 | ends with exactly bits/8 bytes, a prefix of the repeated HMAC block, or the hash error |
| `Duplication.ImportExactly` | tpm-util/duplicate/tpm_duplication_aux.c:181-260 | importing yields a sensitive area if and only if the blob is the one made for that area; the import side (keys for STORAGE and INTEGRITY, HMAC, two decryptions, digest, sizes, limits) is written out byte by byte from section 23.3 of part 1 and section 5.1 of SP 800-108 and shares no definition with the making |
| `Duplication.BlobLength` | tpm-util/duplicate/tpm_duplication_aux.c:217-258 | the blob is 70 bytes longer than the marshalled sensitive area |
| `Duplication.ReadExactly` | tpm-util/duplicate/tpm_duplication_aux.c:217-218 | the inner data is read as a sensitive area if and only if it is that area behind its size |
| `Duplication.FillInnerData` | tpm-util/duplicate/tpm_duplication_aux.c:196-220 | digest, size and sensitive area one after the other, and the bytes past the buffer untouched |
| `Duplication.CreateDuplicationBlob` | tpm-util/duplicate/tpm_duplication_aux.c:145-260 | for well-formed areas outDuplicate is the blob for the name of the public area, the seed and the inner key in effect, and an import under them yields the sensitive area |
| `Duplication.SameStorageKey` | tpm-util/duplicate/tpm_duplication_aux.c:237 | the key of the outer encryption is KDFa of the seed for STORAGE and the name, 128 bits |
| `Duplication.SameIntegrityKey` | tpm-util/duplicate/tpm_duplication_aux.c:241 | the key of the outer HMAC is KDFa of the seed for INTEGRITY, 256 bits |
| `Duplication.BlobImported` | tpm-util/duplicate/tpm_duplication_aux.c:217-258 | the blob for well-formed areas is imported as the sensitive area, under the name 0x000B and the digest of the bytes of the public area |
| `KeySchema.NewP11ObjectSound` | SoftHSMv2/src/lib/P11Objects.cpp:600-1668 | the attribute tables of every kind of secret and private key: mandatory attributes present, every attribute with its own rule and a default of its sort, key parts with footnote 7, private flag not settable |
| `Tables.NotesExactly` | SoftHSMv2/src/lib/P11Objects.cpp:600-1668 | which attributes each kind of key has, and for each footnote which of them have it |
| `Tables.SchemaRegular` | SoftHSMv2/src/lib/P11Objects.cpp:600-1668 | every attribute has the size its rule asks for, except the handle of a key kept elsewhere, and every use is a flag |
| `Tables.FamilyNumbers` | SoftHSMv2/src/lib/P11Objects.cpp:600-1668 | which class and key type, by number, is which kind of key |
| `Attributes.FreshShaped` | SoftHSMv2/src/lib/P11Objects.cpp:997-1079 | after the init chain a new object has exactly the attributes of its table, each of its sort |
| `UpdateRules.UpdateFrame` | SoftHSMv2/src/lib/P11Attributes.cpp:381-489 | an update leaves every attribute alone that the rule of the attribute written does not reach |
| `KeyPolicy.UpdateAllowed` | SoftHSMv2/src/lib/P11Attributes.cpp:1732-1818 | no update raises NEVER_EXTRACTABLE, only generating and deriving raise ALWAYS_SENSITIVE, setting and copying neither clear SENSITIVE nor raise EXTRACTABLE, and the two history flags stay true of the present |
| `KeyPolicy.ApplyAllowed` | SoftHSMv2/src/lib/P11Objects.cpp:218-241 | the same for whole templates |
| `KeyPolicy.UpdateShaped` | SoftHSMv2/src/lib/P11Attributes.cpp:381-489 | an update keeps exactly the attributes of the table, each of its sort |
| `Acceptance.UpdateExactly` | SoftHSMv2/src/lib/P11Attributes.cpp:381-489 | writing an attribute succeeds if and only if its size fits, the object is modifiable or being created or generated, no footnote forbids it (2 when creating, 4 generating, 6 unwrapping), a footnote foresees it (8 when setting, 8 or 17 copying), and the attribute accepts the value: CKA_TRUSTED true only for the security officer |
| `Acceptance.RefusedBefore` | SoftHSMv2/src/lib/P11Attributes.cpp:381-489 | if the type, the size or a footnote stands in the way, the code says which |
| `Acceptance.RefusedByRule` | SoftHSMv2/src/lib/P11Attributes.cpp:492-1830 | and if the attribute itself does not accept the value |
| `Acceptance.WriterStores` | SoftHSMv2/src/lib/P11Attributes.cpp:492-1830 | what a write that succeeds stores, for every rule |
| `Acceptance.SetFits` | SoftHSMv2/src/lib/SoftHSM.cpp:1685-1780 | attributes are set only with footnote 8 |
| `Acceptance.CopyFits` | SoftHSMv2/src/lib/SoftHSM.cpp:1438-1612 | and copied over only with footnote 8 or 17 |
| `Acceptance.CreateFits` | SoftHSMv2/src/lib/P11Objects.cpp:190-301 | an object is created only with entries no footnote forbids, and with every attribute footnotes 1, 3 or 5 ask for |
| `Acceptance.MissingRefused` | SoftHSMv2/src/lib/P11Objects.cpp:248-280 | if one is missing the answer is TEMPLATE_INCOMPLETE |
| `P11Objects.UpdateAttr` | SoftHSMv2/src/lib/P11Attributes.h:124 | the updateAttr an attribute has or inherits, on the object store; `Acceptance.WriterStores` and `Acceptance.UpdateExactly` say what that is |
| `P11Objects.ApplyEntries` | SoftHSMv2/src/lib/P11Objects.cpp:218-241 | the entries of a template in order, up to the first that fails |
| `P11Objects.SaveTemplateTo` | SoftHSMv2/src/lib/P11Objects.cpp:190-301 | the object after a save for every outcome, with its committed copy and open transaction |
| `P11Objects.LengthThenValue` | SoftHSMv2/src/lib/P11Attributes.cpp:231-378 | the length asked for is the length of the value handed out, and a value is handed out whole exactly when there is room |
| `P11Objects.LoadTemplate` | SoftHSMv2/src/lib/P11Objects.cpp:116-187 | the answer to every request, and the code: the general error if and only if some attribute is missing or cannot be decrypted, else SENSITIVE if and only if a footnote 7 attribute of a sensitive or unextractable key is asked for, else TYPE_INVALID for an unknown one, else BUFFER_TOO_SMALL |
| `P11Objects.AnswerExactly` | SoftHSMv2/src/lib/P11Attributes.cpp:231-378 | which of these answers a single request |
| `Readings.FlagHandedOut` | SoftHSMv2/src/lib/P11Attributes.cpp:333-336 | a flag is handed out as one byte |
| `Readings.NumberHandedOut` | SoftHSMv2/src/lib/P11Attributes.cpp:330-332 | and a number as eight, little-endian |
| `Objects.OSObject.SetAttribute` | SoftHSMv2/src/lib/object_store/ObjectFile.cpp:208-233 | a write reaches the committed copy at once outside a transaction |
| `Objects.OSObject.StartTransaction` | SoftHSMv2/src/lib/object_store/ObjectFile.cpp:767-791 | refused exactly when a token object is in a transaction |
| `Objects.OSObject.CommitTransaction` | SoftHSMv2/src/lib/object_store/ObjectFile.cpp:794-825 | a token object keeps its attributes as its committed copy |
| `Objects.OSObject.AbortTransaction` | SoftHSMv2/src/lib/object_store/ObjectFile.cpp:828-856 | a token object goes back to its committed copy, a session object keeps what was written |
| `Objects.SavedExactly` | SoftHSMv2/src/lib/P11Objects.cpp:190-301 | setting and copying succeed if and only if not prohibited and every entry succeeds in turn, and the object is then the in-order application of the template |
| `Objects.FailureUndone` | SoftHSMv2/src/lib/P11Objects.cpp:218-241 | a token object that could not be set or copied is as it was |
| `Objects.UndoneExactly` | SoftHSMv2/src/lib/object_store/SessionObject.cpp:301-314 | a failed call to set attributes is undone for every template if and only if the object is on the token, or cannot be modified at all: session objects have no transactions |
| `Objects.SessionKeepsPrefix` | SoftHSMv2/src/lib/object_store/SessionObject.cpp:301-314 | a session object keeps the writes made before the entry that failed |
| `Objects.IncompleteStaysOpen` | SoftHSMv2/src/lib/P11Objects.cpp:274-280 | a token object whose template was incomplete stays in its transaction, and answers GENERAL_ERROR from then on |
| `Completeness.AppliedExactly` | SoftHSMv2/src/lib/P11Objects.cpp:218-241 | a template succeeds if and only if every entry is taken, given only what the entries before it say of key value and protection flags |
| `Completeness.SaveExactly` | SoftHSMv2/src/lib/P11Objects.cpp:190-301 | saving it succeeds if and only if the object is free, the operation allowed, the template taken and complete |
| `Completeness.CreateExactly` | SoftHSMv2/src/lib/SoftHSM.cpp:10636-10763 | an object is created if and only if class and key type are given and known, access is granted, at most 32 entries are given, and they are taken and complete |
| `Completeness.CreateObjects` | SoftHSMv2/src/lib/P11Attributes.cpp:381-489 | the first entry that a footnote, its type or its size keeps out decides how creating is answered |
| `Completeness.KeyObjects` | SoftHSMv2/src/lib/P11Attributes.cpp:381-489 | and how generating, deriving and unwrapping are |
| `Completeness.CreateRefused` | SoftHSMv2/src/lib/SoftHSM.cpp:10636-10680 | otherwise the answer is that of the first obstacle: class or key type missing, no access, too many entries, unknown kind |
| `Completeness.SetExactly` | SoftHSMv2/src/lib/SoftHSM.cpp:1685-1780 | attributes are set if and only if access is granted, the object is modifiable and every entry is taken |
| `Completeness.SetRefused` | SoftHSMv2/src/lib/SoftHSM.cpp:1700-1760 | otherwise, before any entry is looked at: no access first, then an object that cannot be modified; the object is as it was |
| `Completeness.CopyExactly` | SoftHSMv2/src/lib/SoftHSM.cpp:1438-1612 | an object is copied if and only if it may be read and is copyable, the copy may be written and is private if the original is, what has to be encrypted can be, and every entry is taken |
| `Completeness.CopyRefused` | SoftHSMv2/src/lib/SoftHSM.cpp:1460-1523 | otherwise the answer is that of the first obstacle |
| `Completeness.KeyExactly` | SoftHSMv2/src/lib/SoftHSM.cpp:7245-7343 | a key is made if and only if its parts could be made, class and type are known, access is granted, and the entries of the caller are taken and complete |
| `Generation.AesExactly` | SoftHSMv2/src/lib/SoftHSM.cpp:7156-7343 | generating an AES key succeeds if and only if the length asked for last is 16, 24 or 32, lengths have eight bytes and check values none, at most 28 entries are given, access is granted and the other entries are taken |
| `Generation.AesKey` | SoftHSMv2/src/lib/SoftHSM.cpp:7156-7343 | the key then has the length asked for and the value drawn of that length, and its check value unless that is declined |
| `Generation.AesSucceeds` | SoftHSMv2/src/lib/SoftHSM.cpp:7156-7343 | for every template of uses, SENSITIVE, EXTRACTABLE and a length of 16, 24 or 32 it succeeds, with that length |
| `Generation.AesReadOnly` | SoftHSMv2/src/lib/P11Attributes.cpp:441-449 | a value, origin or history flag in the template, after such entries, is answered with READ_ONLY |
| `Generation.AesRefused` | SoftHSMv2/src/lib/SoftHSM.cpp:7180-7260 | otherwise the answer is that of the first obstacle: a malformed entry, no length, a wrong length, too many entries |
| `Generation.DeriveExactly` | SoftHSMv2/src/lib/SoftHSM.cpp:9509-9820 | a key is derived if and only if the secret is as long as the key has to be, access is granted and the entries are taken; it is the end of the secret, with odd parity for DES |
| `Generation.DeriveRefused` | SoftHSMv2/src/lib/SoftHSM.cpp:9509-9620 | otherwise the answer is that of the first obstacle |
| `Generation.UnwrapExactly` | SoftHSMv2/src/lib/SoftHSM.cpp:6604-6900 | a key is unwrapped if and only if a secret or private key of known type is asked for as the unwrap template wants it, the wrapped key can be decrypted and decoded, access is granted, and the entries are taken and complete |
| `Generation.UnwrapRefused` | SoftHSMv2/src/lib/SoftHSM.cpp:6700-6804 | otherwise the answer is that of the first obstacle: class or key type, access, too many entries, the unwrap template, the decryption |
| `Generation.ObeysExactly` | SoftHSMv2/src/lib/SoftHSM.cpp:6763-6804 | a template obeys an unwrap template if and only if it has exactly one entry for each attribute of that, with the bytes of its value |
| `Readings.NumberMeaning` | SoftHSMv2/src/lib/P11Attributes.cpp:56-70 | eight bytes are read as a number in little-endian order |
| `Readings.FlagMeaning` | SoftHSMv2/src/lib/SoftHSM.cpp:217-287 | the last entry of one byte decides about a flag |
| `Readings.LastNumberMeaning` | SoftHSMv2/src/lib/SoftHSM.cpp:217-287 | and the last of eight bytes about a number |
| `Readings.MechanismsMeaning` | SoftHSMv2/src/lib/P11Attributes.cpp:2499-2518 | every eight bytes of a list of mechanisms are one, and there are no others |
| `Readings.CreatedLength` | SoftHSMv2/src/lib/P11Attributes.cpp:937-971 | a generic secret or AES key that is created has the length of the value given, a Diffie-Hellman key its bits |
| `Readings.BitsMeaning` | SoftHSMv2/src/lib/P11Attributes.cpp:966-971 | the bits of a string are those of the number it stands for |
| `SoftHsm.ExtractObjectInformation` | SoftHSMv2/src/lib/SoftHSM.cpp:217-287 | the last entry of the right size decides class, key type, token and private flags |
| `SoftHsm.SetAttributeValue` | SoftHSMv2/src/lib/SoftHSM.cpp:1732-1780 | code and object afterwards for every outcome |
| `SoftHsm.CopyObject` | SoftHSMv2/src/lib/SoftHSM.cpp:1438-1612 | code and copy for every outcome: not copyable, privacy downgrade, no access, failed template |
| `SoftHsm.CreateObject` | SoftHSMv2/src/lib/SoftHSM.cpp:10636-10763 | code and object left behind for every outcome, for secret and private keys |
| `SoftHsm.GenerateAes` | SoftHSMv2/src/lib/SoftHSM.cpp:7156-7343 | code and key for every template |
| `SoftHsm.DeriveDh` | SoftHSMv2/src/lib/SoftHSM.cpp:9509-9820 | code and key for every template and agreed secret |
| `SoftHsm.CheckUnwrapTemplate` | SoftHSMv2/src/lib/SoftHSM.cpp:6763-6804 | every attribute of the unwrap template is specified exactly once with its value |
| `SoftHsm.UnwrapKey` | SoftHSMv2/src/lib/SoftHSM.cpp:6604-6900 | code and key for every template and unwrapped key |
| `SoftHsm.CheckWrapTemplate` | SoftHSMv2/src/lib/SoftHSM.cpp:6353-6379 | every attribute of the wrap template is present with the same value |
| `Runs.HistoryInvariant` | SoftHSMv2/src/lib/P11Attributes.cpp:1732-1818 | in every world of every run of create, generate, derive, unwrap, copy and set: ALWAYS_SENSITIVE implies sensitive in every committed state of the object, its copy ancestors and its base keys, NEVER_EXTRACTABLE implies extractable in none |
| `Runs.HistoryFlagsExactly` | SoftHSMv2/src/lib/SoftHSM.cpp:9708-9725 | the history flags of a generated, derived or unwrapped key, both directions |
| `Runs.SaveKeepsGood` | SoftHSMv2/src/lib/P11Objects.cpp:190-301 | saving a template, whatever the outcome, keeps an object complete and its history flags true |
| `Runs.CopyKeepsGood` | SoftHSMv2/src/lib/SoftHSM.cpp:1438-1612 | a copy is complete, and its flags are at most those of its original |
| `Runs.KeyKeepsGood` | SoftHSMv2/src/lib/SoftHSM.cpp:7245-7343 | a key made by the token is complete, and a derived key claims no more history than its base key |
| `OneWay.HeirsKeep` | SoftHSMv2/src/lib/SoftHSM.cpp:1438-1780 | a protection no set or copy takes away is kept by an object and all copies that descend from it, over every run |
| `OneWay.NeverRevealed` | SoftHSMv2/src/lib/P11Attributes.cpp:253-256 | once a key is sensitive or not extractable, no run reveals a footnote 7 attribute, or its length, of it or any copy |
| `OneWay.KeyPartsNeverRevealed` | SoftHSMv2/src/lib/P11Attributes.h:930-1016 | nor any secret part of the key, whatever its type |
| `OneWay.NeverWrapped` | SoftHSMv2/src/lib/SoftHSM.cpp:6339-6341 | once a key is not extractable, neither it nor any copy can be wrapped |
| `OneWay.NeverWrappable` | SoftHSMv2/src/lib/SoftHSM.cpp:6339-6379 | a key that says never extractable could be wrapped in none of the states it or its ancestors were committed in |
| `Makers.FixedAsMade` | SoftHSMv2/src/lib/P11Attributes.cpp:1095-1128 | in every world of every run, trust, the restriction to trusted wrapping keys, locality and mechanism are as the call left them that made the object or the one it was first copied from |
| `Makers.CreatedNew` | SoftHSMv2/src/lib/P11Attributes.cpp:1119-1124 | creating an object makes it trusted only if the security officer is logged in |
| `Makers.KeyMade` | SoftHSMv2/src/lib/P11Attributes.cpp:1119-1124 | and so does making a key; it is local if and only if it is generated, and then tells its mechanism |
| `Makers.TrustedByOfficer` | SoftHSMv2/src/lib/P11Attributes.cpp:1119-1124 | in every run, an object that is trusted was made, or first copied from an object that was, by a call with the security officer logged in |
| `Makers.LocalExactly` | SoftHSMv2/src/lib/SoftHSM.cpp:7284-7287 | in every run, a key is local if and only if it, or the key it was first copied from, was generated by the token, and tells the mechanism only then |
| `Makers.NeverClaimed` | SoftHSMv2/src/lib/SoftHSM.cpp:10745-10753 | a key created by value or unwrapped never says it was always sensitive or never extractable, nor does any copy, over every run |
| `Wrapping.WrapExactly` | SoftHSMv2/src/lib/SoftHSM.cpp:6339-6379 | a key can be wrapped if and only if the other may wrap, it is extractable and a secret or private key, the other is trusted if it must be, and the wrap template of the other describes it |
| `Wrapping.WrapRefused` | SoftHSMv2/src/lib/SoftHSM.cpp:6339-6379 | if not, the code says why |
| `Wrapping.FixedForGood` | SoftHSMv2/src/lib/SoftHSM.cpp:1438-1780 | over every run, an object and its copies stay trusted or not, under the same restriction on wrapping, and of the same origin |
| `Wrapping.WrappedUnderOfficers` | SoftHSMv2/src/lib/SoftHSM.cpp:6341-6342 | from the moment a key may be wrapped only under trusted keys, it and its copies can be wrapped only under a key made by a call with the security officer logged in |
| `Decoding.UpdateMatches` | SoftHSMv2/src/lib/P11Attributes.cpp:381-489 | updating an encrypted object and decoding it is updating the decoded object in clear, unless the token fails; the result can always be decoded |
| `Decoding.SaveMatches` | SoftHSMv2/src/lib/P11Objects.cpp:190-301 | the same for saving a whole template, codes and committed copy included |
| `Decoding.PrivateApplied` | SoftHSMv2/src/lib/P11Attributes.cpp:630-654 | after a template the private flag is what its last entry says; setting cannot change it |
| `Decoding.DecodesToLastWritten` | SoftHSMv2/src/lib/P11Attributes.cpp:56-70 | after a template every string, check values included, decodes to the plaintext last written |
| `Decoding.CopyDecodes` | SoftHSMv2/src/lib/SoftHSM.cpp:1524-1572 | a copy, made private or not, holds the same decoded strings |
| `Storage.ReorderedLast` | SoftHSMv2/src/lib/SoftHSM.cpp:10681-10705 | reordering does not change which entry decides a flag |
| `Storage.AlwaysDecodable` | SoftHSMv2/src/lib/P11Attributes.cpp:337-355 | in every run in which the token keeps its key, every string of every object made successfully can be decoded as its private flag says |
| `Plaintexts.StorageInvariant` | SoftHSMv2/src/lib/P11Attributes.cpp:337-355 | in every run in which the token keeps its key, every string of every object made successfully decodes, as its private flag says, to the plaintext last written: by creating it, as key material (nothing where its encryption failed), by setting it, or to the original of a copy |
| `Plaintexts.ReadsLastWritten` | SoftHSMv2/src/lib/P11Attributes.cpp:337-355 | at every moment of every run, what may be revealed is handed out as the plaintext last written, to a caller with room for it |
| `Plaintexts.CreateHolds` | SoftHSMv2/src/lib/SoftHSM.cpp:10636-10763 | a created object holds what the last entry for each string says, and the check value of its key value if the template gives none |
| `Plaintexts.ReorderedGiven` | SoftHSMv2/src/lib/SoftHSM.cpp:10681-10705 | in whatever order the entries come: a check value that is given wins, one that is not is that of the last key value |
| `Plaintexts.CopyHolds` | SoftHSMv2/src/lib/SoftHSM.cpp:1438-1612 | a copy, made private or not, holds what its original does, except for what the template gives |
| `Plaintexts.SetHolds` | SoftHSMv2/src/lib/SoftHSM.cpp:1685-1780 | after C_SetAttributeValue, whatever its outcome, every string stands for the last entry that took effect: of all entries on success, of none on a failed token object, of those before the failed one on a session object |
| `Plaintexts.KeyHolds` | SoftHSMv2/src/lib/SoftHSM.cpp:7245-7343 | a key made by the token holds its parts, and what the template gives; a part whose encryption failed is empty |
| `Plaintexts.SetThenGet` | SoftHSMv2/src/lib/SoftHSM.cpp:1685-1780 | after a successful C_SetAttributeValue, C_GetAttributeValue hands out the value last written, encrypted storage or not |
| `Plaintexts.DatesExactly` | SoftHSMv2/src/lib/P11Attributes.cpp:1169-1182 | a date that was set is handed out if and only if the object is public or the date is empty, because dates are decrypted but never encrypted |
| `Agreement.UpdateAgrees` | SoftHSMv2/src/lib/P11Attributes.cpp:381-489 | whatever succeeds while nobody is logged in would have done the same with the key at hand |
| `CheckValues.CheckValuesExactly` | SoftHSMv2/src/lib/P11Attributes.cpp:818-901 | in every run in which the token keeps its key, the check value of every secret key made successfully is always absent or that of its value, if and only if every call that makes a key writes one that is empty or that of the value it writes |
| `CheckValues.MadeExactly` | SoftHSMv2/src/lib/SoftHSM.cpp:7245-7343 | the key a call makes checks out if and only if what it writes does |
| `CheckValues.SecretConsistent` | SoftHSMv2/src/lib/SoftHSM.cpp:7289-7313 | a generated or derived key checks out if and only if no check value is asked for, or it is lost or empty, or it is that of what is stored as the value |
| `CheckValues.DeriveConsistent` | SoftHSMv2/src/lib/SoftHSM.cpp:9740-9790 | a derived key checks out if and only if the check value, computed before the secret is cut, is that of the part of it that becomes the key |
| `CheckValues.LongSecret` | SoftHSMv2/src/lib/SoftHSM.cpp:9740-9790 | a secret one byte longer than the key for which it is not |
| `CheckValues.UnwrapConsistent` | SoftHSMv2/src/lib/P11Attributes.cpp:818-901 | a check value given when unwrapping has been compared with that of the empty value, so the key checks out if and only if none is given or that of the empty value is that of the key |
| `Steps.AesStep` | SoftHSMv2/src/lib/SoftHSM.cpp:7156-7343 | generating an AES key is a valid step of a run, which leaves the same object |
| `Steps.DeriveStep` | SoftHSMv2/src/lib/SoftHSM.cpp:9509-9820 | deriving a key with Diffie-Hellman is a valid step of a run, which leaves the same object |
| `Steps.UnwrapStep` | SoftHSMv2/src/lib/SoftHSM.cpp:6604-6900 | unwrapping a key whose parts are those of its kind is a valid step of a run, which leaves the same object |
| `Steps.PartsFit` | SoftHSMv2/src/lib/SoftHSM.cpp:11276-11460 | the parts that are stored of each kind of key are attributes of that kind, and hold strings |
| `UnwrapTemplates.TemplateEnforced` | SoftHSMv2/src/lib/SoftHSM.cpp:6763-6804 | when unwrapping succeeds, every flag in the unwrap template has that value on the new key |
| `UnwrapTemplates.StringEnforced` | SoftHSMv2/src/lib/SoftHSM.cpp:6763-6804 | so has every string in it that is not a part of the key, encrypted or not |
| `UnwrapTemplates.ClassEnforced` | SoftHSMv2/src/lib/SoftHSM.cpp:6763-6804 | and class and key type |
| `EcPoint.DerDecodes` | SoftHSMv2/src/lib/SoftHSM.cpp:11108-11136 | the wrapped form decodes to the raw point and has the shortest length (section 8.1.3 of X.690) |
| `EcPoint.RecognisedExactly` | SoftHSMv2/src/lib/SoftHSM.cpp:11067-11103 | what is taken as encoded is an octet string if and only if it has at most eight length octets; an octet string is taken as encoded if and only if it has, is not of a raw point’s size, and is not empty in long form |
| `EcPoint.NineOctets` | SoftHSMv2/src/lib/SoftHSM.cpp:11096-11102 | with nine length octets the last is not looked at |
| `EcPoint.IdempotentExactly` | SoftHSMv2/src/lib/SoftHSM.cpp:11065-11139 | wrapping again changes nothing if and only if the input was taken as encoded or does not have 63, 95 or 130 bytes |
| `EcPoint.WrappedTwice` | SoftHSMv2/src/lib/SoftHSM.cpp:11067-11103 | 63 raw bytes are wrapped into 65, and those again into 67 |
| `EcPoint.GetECDHPubData` | SoftHSMv2/src/lib/SoftHSM.cpp:11065-11139 | recognised input unchanged, everything else wrapped |
| `CipherSizes.ChunkingIndependent` | SoftHSMv2/src/lib/SoftHSM.cpp:2339-2612 | for every message below 2^63 bytes and every way to cut it, announced lengths and refusals agree with the whole message if and only if the mode is a stream mode, the message is refused, or no part completes 2^31 blocks |
| `CipherSizes.WholeMeaning` | SoftHSMv2/src/lib/SoftHSM.cpp:2339-2359 | with padding a whole message becomes the next multiple of the block size, without it must be one, and only stream modes add a tag |
| `CipherSizes.PartExactly` | SoftHSMv2/src/lib/SoftHSM.cpp:2501-2509 | the length announced for a part is that of the blocks it completes if and only if an int can count them |
| `CipherSizes.ShortCountable` | SoftHSMv2/src/lib/SoftHSM.cpp:2501-2509 | which it can in every message below 2^31 bytes, however it is cut |
| `CipherSizes.TooManyBlocks` | SoftHSMv2/src/lib/SoftHSM.cpp:2501-2509 | a part of 2^31 blocks is announced through a negative int, and the message as a whole differently |
| `CipherSizes.Operation.EncryptUpdate` | SoftHSMv2/src/lib/SoftHSM.cpp:2501-2509 | length announced for a part, and what stays buffered |
| `CipherSizes.Operation.EncryptFinal` | SoftHSMv2/src/lib/SoftHSM.cpp:2596-2612 | length announced for the end, or DATA_LEN_RANGE |
| `CipherSizes.Encrypt` | SoftHSMv2/src/lib/SoftHSM.cpp:2339-2359 | length announced for a whole message, or DATA_LEN_RANGE |
| `CipherSizes.EncryptInParts` | SoftHSMv2/src/lib/SoftHSM.cpp:2492-2612 | the lengths announced for a message in parts |
| `DecryptSizes.DecryptPartExactly` | SoftHSMv2/src/lib/SoftHSM.cpp:3201-3213 | in a block mode the length announced for a part is what is handed out for it if and only if an int can count its blocks and it is not an empty first part in padding mode |
| `DecryptSizes.DecryptChunking` | SoftHSMv2/src/lib/SoftHSM.cpp:3034-3330 | for every message below 2^63 bytes and every way to cut it, the parts and the end announce in all what C_Decrypt does, less one byte in padding mode, and are refused alike, if and only if that holds of every part and a message to be unpadded is not empty, or it is refused |
| `DecryptSizes.DecryptBounds` | SoftHSMv2/src/lib/SoftHSM.cpp:3191-3330 | then they bound what is handed out in all, which is the message without its padding |
| `DecryptSizes.StreamBounds` | SoftHSMv2/src/lib/SoftHSM.cpp:3191-3330 | in stream modes, GCM included, they always do |
| `DecryptSizes.Conserved` | SoftHSMv2/src/lib/SoftHSM.cpp:3252-3281 | what is handed out and what is kept add up to what has come in |
| `DecryptSizes.EmptyFirst` | SoftHSMv2/src/lib/SoftHSM.cpp:3204-3212 | a message that begins with an empty part is never announced rightly in padding mode |
| `DecryptSizes.Decryption.DecryptUpdate` | SoftHSMv2/src/lib/SoftHSM.cpp:3201-3213 | length announced for a part, what is handed out, and what stays buffered |
| `DecryptSizes.Decryption.DecryptFinal` | SoftHSMv2/src/lib/SoftHSM.cpp:3299-3314 | length announced for the end, or ENCRYPTED_DATA_LEN_RANGE |
| `DecryptSizes.DecryptMessage` | SoftHSMv2/src/lib/SoftHSM.cpp:3191-3330 | the lengths announced and handed out for a message in parts |
| `SignSessions.SignTable.SignInit` | TPM2-Plugin/lib/tpm2_plugin_api.c:542-569 | claims every free slot, all or none; the handle is the next of the sequence |
| `SignSessions.SignTable.SignUpdate` | TPM2-Plugin/lib/tpm2_plugin_api.c:874-894 | accepted exactly for the active session, and appended to its data |
| `SignSessions.SignTable.SignCleanup` | TPM2-Plugin/lib/tpm2_plugin_api.c:575-595 | frees all slots of the session and resets a sequence past 0xfffffffe |
| `SignSessions.SignTable.SignFinal` | TPM2-Plugin/lib/tpm2_plugin_api.c:896-919 | signs exactly the data of the active session and frees its slots |
| `SignSessions.Play` | TPM2-Plugin/lib/tpm2_plugin_api.c:540-595 | after any run of calls all slots hold the same session, or all are free |
| `SignSessions.SignedExactly` | TPM2-Plugin/lib/tpm2_plugin_api.c:872-918 | in every run, under every interleaving: the data signed is the concatenation of exactly the updates accepted since the session got its slots |
| `SignSessions.StartedThere` | TPM2-Plugin/lib/tpm2_plugin_api.c:557-564 | it got them from an init that found no session active, and has been active ever since |
| `SignSessions.SignedInFull` | TPM2-Plugin/lib/tpm2_plugin_api.c:872-918 | as long as no reset happens, the data are all updates ever accepted for the handle |
| `SignSessions.HandlesInOrder` | TPM2-Plugin/lib/tpm2_plugin_api.c:554-555 | handles count the inits since the last reset, and the active one has been given out already unless there was a reset since |
| `SignSessions.FewStarted` | TPM2-Plugin/lib/tpm2_plugin_api.c:592-593 | there is no reset as long as fewer than 0xffffffff sessions have been started |
| `SignSessions.ManyStarted` | TPM2-Plugin/lib/tpm2_plugin_api.c:592-593 | and the first cleanup after as many is one |
| `SignSessions.SharedExactly` | TPM2-Plugin/lib/tpm2_plugin_api.c:592-593 | the next session is told the handle of the active one if and only if there was a reset since that started and its handle counts the inits since |
| `SignSessions.ResetMixesSessions` | TPM2-Plugin/lib/tpm2_plugin_api.c:592-593 | a run that leads there, in which the data of two sessions are mixed |
| `SignSessions.ClaimedExactly` | TPM2-Plugin/lib/tpm2_plugin_api.c:557-564 | after an init in any run, its session holds all slots if no other is active or the active one has the same handle, and none otherwise |
| `SignSessions.SecondRefused` | TPM2-Plugin/lib/tpm2_plugin_api.c:884-894 | after any run in which a second session is started and the first not closed, the second has no slot and its updates are refused |
| `HashChunks.Cut` | TPM2-Plugin/lib/tpm2_plugin_api.c:674-690 | the buffers concatenate to the message, all but the last full, the last not empty, at most 64, so the UINT8 count never wraps |
| `HashChunks.OneWayToCut` | TPM2-Plugin/lib/tpm2_plugin_api.c:674-690 | there is only one way to cut a message like this |
| `HashChunks.HashSequenceEx` | TPM2-Plugin/lib/tpm2_plugin_api.c:608-659 | succeeds exactly when every command does, with the hash of the concatenation |
| `HashChunks.HashComputeData` | TPM2-Plugin/lib/tpm2_plugin_api.c:661-695 | for every 16-bit length success means the hash of the message, in one command or many |

## Left out

- Unmarshal.UnmarshalPublic: what a failing call leaves in the target structure is not modelled; the
  routines return their value, and fields that were not reached hold zeros.
- Unmarshal.UnmarshalPublicParms: the members of a union that the selector does not choose are zero,
  where the C code leaves whatever memory held.
- Marshal.MarshalPublic: the forms without a buffer (count only) or without a budget are not modelled.
- Marshal.MarshalUInt8: the same.
- Marshal.MarshalUInt16: the same.
- Marshal.MarshalUInt32: the same.
- Converters.PublicTo2B: nothing is promised for areas that are not well formed, nor for builds whose
  structures are smaller than their own encodings; the code ignores the errors it gets then.
- Converters.SensitiveTo2B: as for public areas.
- Converters.PublicFrom2B: the same.
- Converters.SensitiveFrom2B: the same.
- Converters.HashPublic: areas whose encoding is longer than 1022 bytes and so does not fit the stack
  buffer; builds whose structures fit the buffers have none.
- Converters.GetName: the same.
- Duplication.CreateDuplicationBlob: the encryption of the seed under the protector's RSA key, and the
  variant that takes sized areas.
- Kdf.KDFa: requests of more than 1024 bytes, for which the loop does not end (`Kdf.LoopEnds`).
- Digest lists, capabilities, attestation structures and the other structures of marshal.c that public
  and sensitive areas and PCR selections do not contain.
- PcrSelection.UnmarshalList: what a failing call leaves in the target array.
- SoftHsm.CreateObject: objects of other classes than secret and private keys (data, certificates, public
  keys and domain parameters) are answered with CKR_ATTRIBUTE_VALUE_INVALID.
- P11Objects.UpdateAttr: the branches for certificates.
- P11Objects.LoadTemplate: what is written for mechanism sets and wrapping templates; they are handed
  out as nothing.
- P11Objects.LengthThenValue: the same.
- Objects.OSObject.StartTransaction: locking and disk errors of transactions.
- Objects.OSObject.CommitTransaction: the same.
- Objects.OSObject.AbortTransaction: the same.
- Plaintexts.StorageInvariant: start and end dates, which are not encrypted (`Plaintexts.DatesExactly`) except
  by a copy that becomes private.
- SoftHsm.GenerateAes: failures of the random generator and of the second transaction.
- SoftHsm.DeriveDh: the Diffie-Hellman computation and the checks on the base key; ECDH and symmetric
  derivation, which treat the history flags alike.
- SoftHsm.UnwrapKey: mechanisms, the checks on the unwrapping key itself, and the decoding of private
  keys.
- UnwrapTemplates.StringEnforced: dates in unwrap templates.
- UnwrapTemplates.ClassEnforced: other numbers; the sizes kept beside a key cannot be given when unwrapping.
- OneWay.NeverWrapped: the mechanisms of C_WrapKey and the encryption of the key.
- Wrapping.WrapExactly: the same, among them that an RSA key wraps secret keys only, and the access checks on both
  keys.
- Wrapping.WrappedUnderOfficers: the same.
- Completeness.CreateExactly: objects of other classes, as for SoftHsm.CreateObject.
- Generation.AesExactly: failures of the random generator and of the second transaction.
- Generation.DeriveExactly: the Diffie-Hellman computation and the checks on the base key.
- Generation.UnwrapExactly: mechanisms, the checks on the unwrapping key itself, and the decoding of private keys.
- Cfb.CfbInTwo: a buffer copied onto itself is taken to stay as it is.
- CheckValues.CheckValuesExactly: GOST 28147 keys, for which the library computes no check value and stores
  whatever it is given.
- CipherSizes.ChunkingIndependent: the maximum number of bytes of a mode, and messages of 2^63 bytes or more;
  a cipher is taken to buffer exactly the residue of the block size.
- CipherSizes.Encrypt: the maximum number of bytes of a mode.
- CipherSizes.Operation.EncryptUpdate: the same.
- DecryptSizes.DecryptChunking: the same, and messages of 2^63 bytes or more.
- SignSessions.SignTable.SignUpdate: updates that overrun the data of a slot.
- Runs.HistoryInvariant: what the init chain writes, and the first commit of an object that is created.
- EcPoint.IdempotentExactly: points so long that their encoding has 2^64 bytes.
- SignSessions.Play: handle 0, which is never given out; updates that overrun a slot; and the wrap-around
  of the 64-bit sequence.
- Slots, sessions, logins, handles, object files on disk, mutexes, the public half of key pairs, OpenSSL
  and Botan, the TSS calls, the command line tools and hexadecimal parsing.
