# wg-portal: identity-provider login, key text and peer records, in Dafny

This project models four parts of the wg-portal WireGuard management portal:

1. **The OpenID Connect authenticator.** Construction from a provider configuration:
   - discovery, which can fail;
   - a verifier bound to the client id as audience;
   - the OAuth2 configuration with its scope list.

   It also models the accessors `GetName`, `RegistrationEnabled` and `GetType`, and the chain of checks in `GetUserInfo`. That chain accepts a login only when all of these hold:
   - the token carries an `id_token` string;
   - the verifier accepts it;
   - its nonce is exactly the expected one;
   - its claims decode.

   Finally it models the hand-over of the claims to the shared OAuth field mapping (`ParseUserInfo`).
2. **The text form of WireGuard keys.** This is standard base64 with padding, per section 4 of RFC 4648, in both directions. On top of it sit the key-pair byte getters and the key-generation wrappers.
3. **The API peer records.** This covers:
   - the JSON codec of the expiry date, a quoted `YYYY-MM-DD` or `null`;
   - the field-copying conversions between API and domain peers;
   - the statistics map built from peer statuses.
4. **The `truncate` display filter** of the web front end.

Each part has its own module:
- `AuthOidc`: `auth_oidc.dfy`
- `Base64` and `DomainCrypto`: `base64.dfy`, `crypto.dfy`
- `ExpiryDateJson`, `DomainPeer` and `ApiModelPeer`: `expiry_date.dfy`, `domain_peer.dfy`, `models_peer.dfy`
- `Filters`: `filters.dfy`

`Wrappers` holds `Option` and `Result`.

Calls into code outside the model are parameters of the operations that make them:
- `discover`: OIDC discovery;
- `verify`: ID-token verification of signature, issuer, audience and expiry;
- `decodeClaims`: decoding of the claim payload;
- `getFieldMapping` and `parseOauthUserInfo`: the shared OAuth field mapping;
- the outcome of WireGuard key generation, `parseKey` and `publicKeyOf`;
- the `Helpers` bundle of option, slice and address converters and of the `IsDisabled` test;
- `isConnected`: the peer-connectivity test;
- `now`: the clock reading.

Each parameter is an arbitrary total function, or an arbitrary value. Every property below holds whatever these collaborators do, with two exceptions:
- `ParseFixtureThroughAuthenticator` requires that `parseOauthUserInfo` meets the unit test's expectations for the test's claims and mappings.
- The disabled-flag clause of `DomainRoundTrip` holds only when `IsDisabled` of a domain peer means that the peer has a disabling time. Its other clauses hold for any helpers.

`GetUserInfo` returns its trace-log output beside its result. This makes the `LogUserInfo` flag an explicit input whose effect can be stated.

The scope list is `openid` followed by the configured extra scopes, joined by a plain append (internal/app/auth/auth_oidc.go:45-46). Nothing is removed or deduplicated, so a configured `openid` appears twice.

## Model

| member | source | states |
|---|---|---|
| `AuthOidc.NewOidcAuthenticator` | internal/app/auth/auth_oidc.go:27-60 | Construction fails, with the wrapped discovery error and no authenticator, exactly when discovery of the base URL fails. Otherwise the scopes are `openid` followed by the extra scopes in order. The verifier is bound to the discovered provider and the client id. Client id, secret, endpoint and redirect URL are copied. The field mapping is the shared mapping of the configured fields, and the admin mapping and logging flag are the configured ones. `GetName`, `RegistrationEnabled` and `GetType` of the result return the provider name, the registration flag and the OIDC tag. |
| `AuthOidc.GetName` | internal/app/auth/auth_oidc.go:62-64 | The provider name. It is pinned to the configured name by the ensures of `NewOidcAuthenticator`. |
| `AuthOidc.RegistrationEnabled` | internal/app/auth/auth_oidc.go:66-68 | The registration flag. It is pinned to the configured flag by the ensures of `NewOidcAuthenticator`. |
| `AuthOidc.GetType` | internal/app/auth/auth_oidc.go:70-72 | Always the OIDC tag, as the ensures of `NewOidcAuthenticator` states for the constructed authenticator. |
| `AuthOidc.RawIDToken` | internal/app/auth/auth_oidc.go:89-92 | The raw ID token is present exactly when the token's `id_token` extra field exists and is a string, and then it is that string. |
| `AuthOidc.GetUserInfo` | internal/app/auth/auth_oidc.go:85-112 | A successful result implies every guard passed: the `id_token` string is present, the verifier accepted it, the verified nonce equals the supplied nonce, and the returned map is exactly the decoded claims. Anything is traced only when logging is on and the login succeeded. |
| `AuthOidc.AllGuardsPassAccepts` | internal/app/auth/auth_oidc.go:89-111 | When every guard passes, the result is success with the decoded claims. |
| `AuthOidc.MissingIdTokenRejected` | internal/app/auth/auth_oidc.go:89-92 | A token without an `id_token` string fails with the missing-id-token error. The outcome does not depend on the verifier, the decoder or the nonce, so none of them is consulted. |
| `AuthOidc.VerificationFailureRejected` | internal/app/auth/auth_oidc.go:93-96 | A rejected ID token fails with the wrapped verifier error. The outcome does not depend on the nonce or the decoder. |
| `AuthOidc.NonceMismatchRejected` | internal/app/auth/auth_oidc.go:97-99 | A verified token whose nonce differs from the supplied one fails with the nonce-mismatch error. The outcome does not depend on the decoder. |
| `AuthOidc.LoggingDoesNotChangeOutcome` | internal/app/auth/auth_oidc.go:106-111 | The logging flag changes neither the claims nor the error. With logging off nothing is traced. With logging on, an accepted login traces exactly its claims under the provider name. |
| `AuthOidc.ParseFixtureThroughAuthenticator` | internal/app/auth/oauth_common_test.go:38-56 | Suppose an authenticator is built with the unit test's field and admin mapping, and the shared mapping meets the test's expectations for those mappings. Then parsing the test's claims through the authenticator gives IsAdmin true, Firstname "Test User", Lastname "" and Email "test@mydomain.net". Discovery failure yields no result. |
| `AuthOidc.ParseUserInfo` | internal/app/auth/auth_oidc.go:114-116 | The shared mapping applied to the field and admin mappings stored at construction. `ParseFixtureThroughAuthenticator` states what this gives for the unit test's claims. |
| `Base64.Decode` | internal/domain/crypto.go:14-22 | Text that decodes to n bytes has exactly 4·⌈n/3⌉ characters. |
| `Base64.EncodeLength` | internal/domain/crypto.go:57-59 | The encoding of n bytes has 4·⌈n/3⌉ characters. |
| `Base64.EncodeShape` | internal/domain/crypto.go:57-59 | Every character of an encoding is in the standard alphabet except the last (3 − n mod 3) mod 3, which are `=`. |
| `Base64.DecodeEncode` | internal/domain/crypto.go:57-59 | Decoding the encoding of any byte sequence gives that sequence back. |
| `Base64.KeyEncodingShape` | internal/domain/crypto.go:57-59 | A 32-byte key encodes to 44 characters: 43 alphabet characters and one final `=`. |
| `DomainCrypto.KeyBytesToString` | internal/domain/crypto.go:57-59 | The key text has 4·⌈n/3⌉ characters, all from the standard alphabet or `=`. |
| `DomainCrypto.KeyString` | internal/domain/crypto.go:42-45 | The text of a WireGuard key has 44 characters ending in `=`, and it decodes back to the key. |
| `DomainCrypto.GetPrivateKeyBytes` | internal/domain/crypto.go:14-17 | Text that does not decode gives no bytes. Text that decodes to n bytes has 4·⌈n/3⌉ characters. `PrivateKeyBytesRoundTrip` makes it the inverse of `KeyBytesToString`. |
| `DomainCrypto.GetPublicKeyBytes` | internal/domain/crypto.go:19-22 | Text that does not decode gives no bytes. Text that decodes to n bytes has 4·⌈n/3⌉ characters. `PublicKeyBytesRoundTrip` makes it the inverse of `KeyBytesToString`. |
| `DomainCrypto.PrivateKeyBytesRoundTrip` | internal/domain/crypto.go:14-17 | `GetPrivateKeyBytes` of a key pair whose private key is `KeyBytesToString(b)` is `b`. |
| `DomainCrypto.PublicKeyBytesRoundTrip` | internal/domain/crypto.go:19-22 | `GetPublicKeyBytes` of a key pair whose public key is `KeyBytesToString(b)` is `b`. |
| `DomainCrypto.NewFreshKeypair` | internal/domain/crypto.go:36-46 | If generation fails, the result is the empty key pair with that error. Otherwise there is no error, both keys are 44 characters, and the byte getters give back the generated private key and its derived public key. |
| `DomainCrypto.NewPreSharedKey` | internal/domain/crypto.go:48-55 | If generation fails, the result is `""` with that error. Otherwise it is the 44-character text that decodes to the generated key, with no error. |
| `DomainCrypto.PublicKeyFromPrivateKey` | internal/domain/crypto.go:61-67 | If the private key does not parse, the result is `""`. Otherwise it is 44 characters that decode to the derived public key. |
| `ExpiryDateJson.FormatExpiryDate` | internal/app/api/v0/model/models_peer.go:37 | A four-digit year gives 12 characters: a quote, the year, a dash at position 5, a dash at position 8 and a closing quote. A longer year gives more characters. `ParseFormat` and `FormatParse` make it the inverse of `ParseExpiryDate`. |
| `ExpiryDateJson.ParseExpiryDate` | internal/app/api/v0/model/models_peer.go:20-23 | An accepted text is 12 characters long and yields a midnight time. |
| `ExpiryDateJson.ParseFormat` | internal/app/api/v0/model/models_peer.go:9-38 | Parsing the formatted text of any date with a four-digit year gives that date back. |
| `ExpiryDateJson.FormatParse` | internal/app/api/v0/model/models_peer.go:9-38 | Any accepted text is exactly the formatted text of the date it yields, so both directions share one layout. |
| `ExpiryDateJson.LongYearDoesNotRoundTrip` | internal/app/api/v0/model/models_peer.go:37 | A date after year 9999 is formatted with more digits than the layout reads back, so its text is rejected. |
| `ExpiryDateJson.ExpiryDate.UnmarshalJSON` | internal/app/api/v0/model/models_peer.go:16-29 | Empty input, `null` and `""` succeed and leave the time unchanged. Text outside the layout is an error and leaves the time unchanged. The zero date succeeds without being stored. Any other date is stored. |
| `ExpiryDateJson.MarshalJSON` | internal/app/api/v0/model/models_peer.go:32-39 | A nil receiver or nil time gives `null`. Otherwise the result is the quoted `YYYY-MM-DD` text of the time. |
| `ExpiryDateJson.MarshalRoundTrip` | internal/app/api/v0/model/models_peer.go:16-38 | Unmarshalling the marshalled bytes of an expiry date into a fresh value succeeds and restores it. This holds for no date and for a non-zero midnight date with a four-digit year. |
| `ApiModelPeer.NewPeer` | internal/app/api/v0/model/models_peer.go:77-108 | The identifiers, display name, disabled reason, expiry date, notes, preshared key, both keys, mode and check-alive address of the domain peer are copied. The disabled flag is `IsDisabled` of the peer. `DomainRoundTrip` shows that `NewDomainPeer` undoes it, and `NewPeers` applies it element-wise. |
| `ApiModelPeer.NewPeers` | internal/app/api/v0/model/models_peer.go:110-117 | The result has the length of the input, and element i is `NewPeer` of input element i. |
| `ApiModelPeer.NewDomainPeer` | internal/app/api/v0/model/models_peer.go:119-165 | The domain peer has a disabling time exactly when the API peer is disabled, and that time is `now`. |
| `ApiModelPeer.DomainRoundTrip` | internal/app/api/v0/model/models_peer.go:77-165 | `NewPeer(NewDomainPeer(p))` keeps the expiry date and these plain text fields: identifier, display name, user and interface identifiers, disabled reason, notes, preshared key, private and public key, mode and check-alive address. The disabled flag survives when `IsDisabled` means having a disabling time. |
| `ApiModelPeer.NewDomainPeerCreationRequest` | internal/app/api/v0/model/models_peer.go:172-177 | The request carries the same identifiers, in order, and the same suffix. |
| `ApiModelPeer.StatsKeys` | internal/app/api/v0/model/models_peer.go:190-209 | The keys of the statistics map are exactly the distinct peer identifiers of the statuses. |
| `ApiModelPeer.StatsLastWins` | internal/app/api/v0/model/models_peer.go:193-204 | The entry for an identifier is the data of the last status that carries it. |
| `ApiModelPeer.NewPeerStats` | internal/app/api/v0/model/models_peer.go:190-210 | The tracking flag is copied. The map holds one entry per distinct peer identifier, and a repeated identifier keeps the data of its last status. |
| `Filters.Substring` | frontend/src/main.js:38 | For bounds inside the string, `substring` is the slice between them. A start at or below 0 gives the prefix up to the clamped end. |
| `Filters.EffectiveSuffix` | frontend/src/main.js:36 | A missing or empty suffix becomes `"..."`. Any other suffix is kept. |
| `Filters.Truncate` | frontend/src/main.js:35-42 | A value no longer than the limit is returned unchanged. A longer value becomes its first `maxLength` characters followed by the suffix, with length exactly `maxLength` plus the suffix length. A negative limit leaves only the suffix. The result always starts with the first min(length, limit) characters of the value. |

## Left out

- `AuthCodeURL` and `Exchange`: they only delegate to the OAuth2 library (URL building, the token-endpoint request), so nothing of their own is left to state.
- Contexts, cancellation and the network: discovery, verification and claim decoding are arbitrary functions with opaque success or failure.
- The trace log: its text is not modelled, only which claims it would record and whether it is written.
- `ParseUserInfo`: the shared field mapping and admin-regex matching live in files not part of this model. The mapping is a parameter, constrained only by the unit-test fixture.
- `ProviderCreationFailed`, `TokenValidationFailed`, `ClaimsParseFailed`: the wrapped error texts are not modelled; each error carries its cause.
- `OauthFields` and `OauthAdminMapping` hold only the fields the unit test sets. Other configuration fields of the real types are not part of this model.
- `GetPrivateKey` and `GetPublicKey`: they only call the WireGuard key parser and discard its error.
- Key generation, the Curve25519 derivation and `wgtypes.ParseKey`: their outcomes are inputs.
- `DomainCrypto.KeyString`: it encodes the key with the standard base64 encoding, which is what the WireGuard library's key `String` method does. That library is not part of this model.
- `DomainCrypto.GetPrivateKeyBytes`, `DomainCrypto.GetPublicKeyBytes`: on invalid text the model returns no bytes. Go returns whatever was decoded before the corrupt group. No property is claimed for invalid text.
- `Base64.Decode` does not skip carriage returns and line feeds, which Go's decoder ignores. Key texts contain none.
- `ExpiryDateJson.ParseExpiryDate` accepts exactly four decimal year digits. It does not model `time.Parse` error texts or any layout other than the fixed date layout.
- Time zones and times of day: `Format` prints the date part only, so the round trip is stated for midnight times.
- Negative years are not represented.
- `ExpiryDateJson.ExpiryDate.UnmarshalJSON`: the input bytes are a character string.
- `NewPeer` and `NewDomainPeer`: the option, slice and address converters, `IsDisabled` and `IsConnected` are parameters. The domain peer's base model and the fields no conversion touches are not part of this model.
- `CidrsFromArray`: its error is discarded by the source and is not modelled.
- `Filters.Truncate`: lengths count characters where JavaScript counts UTF-16 code units. A non-integer or missing `maxLength` is not modelled.
- The mail template renderer, the repository interfaces, the i18n setup and the Vue bootstrap: they are library wiring with no logic of their own.
