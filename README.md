# Jackut core in Dafny

Jackut is a small social network with user accounts, sessions, profiles,
friendship by invitation, fans and idols, crushes, enemies, private messages
(recados) and communities. This project models its business core: the class
`Jackute` and the managers behind it. **GerenciadorUsuarios** is the user store
and the relationship engine. **GerenciadorSessoes** is the session table.
**GerenciadorComunidades** is the community registry. The model also covers the
records those managers hold: `Usuario`, `Perfil`, `Recado` and `Community`.

The model has two layers.

- **Value layer.** Each entity is a datatype: `Conta` for a user, `Comunidade`
  for a community, `Recado` for a message. Each manager's state is a map:
  `RegrasUsuarios.Contas`, `Sessoes.Tabela`, `GerenciamentoComunidades.Registro`
  and `RegrasJackute.Estado`. Each operation is a function from the state
  before to a `Passo`, which holds the outcome (`Ok` or one `Erro` per
  exception class) and the state after. The state after is needed because
  `adicionarPaquera` can throw after it has already changed an account.
  Invariants and properties are proved as lemmas at this level.
- **Object layer.** The Java classes become Dafny classes with the same
  mutable fields:
  - `Usuario`, `Perfil` and `Community` hold `seq`/`set`/`map` fields.
  - `GerenciadorUsuarios` holds a `map<string, Usuario>` of objects, so one
    record can be changed in place.
  - `Jackute` holds its two managers.

  Every public method's ensures gives its result and its new abstract state
  (`State()`/`Abs()`) as those of the value-level rule it names (for example
  `Jackute.EhAmigo` is `RegrasUsuarios.SaoAmigos`, a `Usuario` mutator is the
  matching `Conta.Com*` update), or, for lookups and getters, directly in
  terms of the abstract state. The private steps (`Entregar`,
  `AceitarConvite`, `AmizadeMutua`, `ConvitesRemovidos`, `Convidar`) state
  their own effect on the store's value instead.

Files:

- `erros.dfy`: the exceptions as `Erro`, plus `Result` and `Passo`.
- `colecoes.dfy`: the behaviour of `LinkedHashSet.add`, `String.join`,
  `isBlank` and hash-set enumeration.
- `recado.dfy`, `perfil.dfy`, `usuario.dfy`, `comunidade.dfy`: the records.
- `regras_usuarios.dfy`, `propriedades_usuarios.dfy`, `gerenciador_usuarios.dfy`:
  the user store's rules, their properties, and the manager class.
- `gerenciador_sessoes.dfy`: the session table.
- `gerenciador_comunidades.dfy`: the community registry.
- `regras_jackute.dfy`, `propriedades_jackute.dfy`, `jackute.dfy`: the same
  three parts for `Jackute`.

The store invariant `RegrasUsuarios.Inv` says:

- Every account is stored under its own login.
- Every account has a "nome" attribute.
- No account is related to itself.
- Friendship is symmetric.
- Enmity is symmetric.
- Fan and idol sets mirror each other.
- Crushes name existing accounts.
- Every pending invitation is SENT on one side and RECEIVED on the other.

Every state-changing rule is proved to keep it. `RegrasJackute.Inv` adds two
facts: no login is blank, and every session names an account.

### Behaviour of the code worth knowing

- **Repeated idol or crush.** Neither `adicionarIdolo` nor `adicionarPaquera`
  (GerenciadorUsuarios.java:140-176) checks whether the relation already
  exists. `PaqueraExistenteException` is defined but thrown nowhere.
  - A repeated `adicionarIdolo` succeeds and changes nothing
    (`AdicionarIdoloRepetido`).
  - A repeated one-sided `adicionarPaquera` also changes nothing.
  - A repeated reciprocal `adicionarPaquera` runs `enviarRecadoSistema` again,
    so each side receives one more "Sistema" message
    (`AdicionarPaqueraRepetida`).
- **Enmity when sending a message.** `Jackute.enviarRecado`
  (Jackute.java:126-135) makes no enmity check. `GerenciadorUsuarios.enviarRecado`
  (GerenciadorUsuarios.java:229-240) refuses an enemy recipient but not a
  message to oneself, and `Jackute` never calls it. See
  `EnviarRecadoIgnoraInimizade` and `EnviarRecadoGerenciador`.
- **The late re-check in crush notification.** `enviarRecadoSistema`
  (GerenciadorUsuarios.java:178-193) checks enmity again, after
  `adicionarPaquera` has already recorded the crush.
  - Under the invariant this re-check cannot fail: enmity is stored on both
    sides, and the caller's side was already checked.
  - Outside the invariant it fails after the crush has been recorded.
  - See `PaqueraFalhaSemEfeito` and `PaqueraReverificacaoTardia`.

## Model

Proof helpers have no row. These are the frame lemmas `RegrasUsuarios.*Moldura`,
the `NovaConta*`, `AceitarConvite*`, `NovoConvite*`, `*Relacoes` and
`SoAmizadeMuda*` steps of the preservation proofs, and the abbreviation
`PropriedadesUsuarios.ErroDoInimigo`.

The value-level rules themselves have no row either: they are the reference
definitions that the method and lemma rows below describe. These are
`RegrasUsuarios.CriarUsuario`, `AdicionarAmigo`, `SaoAmigos`, `AdicionarIdolo`,
`AdicionarPaquera`, `EnviarRecadoSistema`, `AdicionarInimigo` and
`EnviarRecado`; `RegrasJackute.CriarUsuario`, `AbrirSessao`, `EditarPerfil`,
`AdicionarAmigo`, `EnviarRecado` and `LerRecado`; `Sessoes.Criar` and
`Consultar`; and `GerenciamentoComunidades.Criar`, `AdicionarMembroEm`,
`Descricao`, `Dono` and `ListarMembrosDe`. Each one's behaviour is stated by
the `*Efeito`, `*Ordem*`, `*PreservaInv` and round-trip lemmas about it, and
the class methods in the table are proved to follow these rules.

| member | source | states |
|---|---|---|
| Colecoes.Insert | src/br/ufal/ic/p2/jackut/models/Usuario.java:80-82 | LinkedHashSet.add: the members are the old ones plus x; the old order is a prefix; a new element goes last; a present one changes nothing; no duplicates appear |
| Colecoes.JoinSnoc | src/br/ufal/ic/p2/jackut/services/GerenciadorComunidades.java:39-42 | joining one more part appends the separator and the part to the joined string |
| Colecoes.Enumeracao | src/br/ufal/ic/p2/jackut/services/GerenciadorUsuarios.java:214-217 | a hash set's iteration: every element exactly once, in an order left unspecified |
| Recados.Construcao | src/br/ufal/ic/p2/jackut/models/Recado.java:27-35 | the sender and text read back are those given at construction |
| Recados.ToStringIgnoraRemetente | src/br/ufal/ic/p2/jackut/models/Recado.java:43-45 | toString shows only the text: two messages read alike exactly when their texts are equal |
| Perfis.Atributo | src/br/ufal/ic/p2/jackut/models/Perfil.java:29-34 | getAtributo succeeds exactly for a present key, with its value; otherwise AtributoNaoPreenchido |
| Perfis.Perfil.constructor | src/br/ufal/ic/p2/jackut/models/Perfil.java:20 | a new profile has no attributes |
| Perfis.Perfil.SetAtributo | src/br/ufal/ic/p2/jackut/models/Perfil.java:42-44 | the attribute map becomes the old one with that key set to the value |
| Perfis.SetEntaoGet | src/br/ufal/ic/p2/jackut/models/Perfil.java:29-44 | after setAtributo(k, v), getAtributo(k) is v and every other key reads as before |
| Usuarios.ConvitesExclusivos | src/br/ufal/ic/p2/jackut/models/Usuario.java:90-102 | an invitation to x and an invitation from x are never pending at once; a login is in the map exactly when one of them is |
| Usuarios.Usuario.TemConvitePara | src/br/ufal/ic/p2/jackut/models/Usuario.java:90-92 | true exactly when the invitation map holds ENVIADO for that login; then no invitation was received from it |
| Usuarios.Usuario.TemConviteDe | src/br/ufal/ic/p2/jackut/models/Usuario.java:100-102 | true exactly when the invitation map holds RECEBIDO for that login; then no invitation was sent to it |
| Usuarios.Conta.LerRecado | src/br/ufal/ic/p2/jackut/models/Usuario.java:138-142 | an empty queue gives SemRecados and no change; otherwise the head's text is returned and the head alone is removed |
| Usuarios.FilaFifo | src/br/ufal/ic/p2/jackut/models/Usuario.java:128-142 | from an empty queue, sending M1 then M2 reads M1, then M2, then SemRecados |
| Usuarios.LerDepoisDeEnfileirar | src/br/ufal/ic/p2/jackut/models/Usuario.java:128-142 | on a queue that is not empty, appending a message and then reading gives the same result as reading and then appending |
| Usuarios.Usuario.constructor | src/br/ufal/ic/p2/jackut/models/Usuario.java:44-49 | a new account holds login and password, a profile with only "nome", and empty relations and queue |
| Usuarios.Usuario.AdicionarAmigo | src/br/ufal/ic/p2/jackut/models/Usuario.java:80-82 | the record's value gains the friend by set insertion; nothing else changes |
| Usuarios.Usuario.AdicionarConvite | src/br/ufal/ic/p2/jackut/models/Usuario.java:110-112 | the invitation map records or overwrites the status for that login |
| Usuarios.Usuario.RemoverConvite | src/br/ufal/ic/p2/jackut/models/Usuario.java:119-121 | the invitation entry for that login is gone; the rest is unchanged |
| Usuarios.Usuario.AdicionarRecado | src/br/ufal/ic/p2/jackut/models/Usuario.java:128-130 | the message joins the tail of the queue |
| Usuarios.Usuario.LerRecado | src/br/ufal/ic/p2/jackut/models/Usuario.java:138-142 | the result and the new record are those of Conta.LerRecado (destructive FIFO read) |
| Usuarios.Usuario.GetAmigosOrdenados | src/br/ufal/ic/p2/jackut/models/Usuario.java:144-151 | the list is the record's friend sequence itself, in the order of addition that Insert and AmigosNaOrdemDeAdicao fix; each friend once and nothing else |
| Usuarios.AmigosNaOrdemDeAdicao | src/br/ufal/ic/p2/jackut/models/Usuario.java:80-82 | two new friends follow the earlier ones in call order; adding a friend again changes nothing |
| Usuarios.Usuario.AdicionarInimigo | src/br/ufal/ic/p2/jackut/services/GerenciadorUsuarios.java:204-205 | the enemy set gains the login; nothing else changes |
| Usuarios.Usuario.AdicionarIdolo | src/br/ufal/ic/p2/jackut/services/GerenciadorUsuarios.java:153 | the idol set gains the login; nothing else changes |
| Usuarios.Usuario.AdicionarFa | src/br/ufal/ic/p2/jackut/services/GerenciadorUsuarios.java:154 | the fan set gains the login; nothing else changes |
| Usuarios.Usuario.AdicionarPaquera | src/br/ufal/ic/p2/jackut/services/GerenciadorUsuarios.java:169 | the crush set gains the login; nothing else changes |
| RegrasUsuarios.GetUsuario | src/br/ufal/ic/p2/jackut/services/GerenciadorUsuarios.java:48-52 | succeeds exactly for a known login, with its account; otherwise UsuarioNaoEncontrado |
| RegrasUsuarios.ErroInimigo | src/br/ufal/ic/p2/jackut/services/GerenciadorUsuarios.java:75-78 | the enemy exception carries the target's "nome"; when "nome" is missing, fetching it throws AtributoNaoPreenchido first |
| RegrasUsuarios.ListarAmigos | src/br/ufal/ic/p2/jackut/services/GerenciadorUsuarios.java:126-129 | a known login gives "{" + its friends in insertion order, comma-joined + "}"; an unknown one fails |
| RegrasUsuarios.EhFa | src/br/ufal/ic/p2/jackut/services/GerenciadorUsuarios.java:209-212 | defined exactly when the fan exists, and true exactly when the idol is in the fan's idol set |
| RegrasUsuarios.GetFas | src/br/ufal/ic/p2/jackut/services/GerenciadorUsuarios.java:214-217 | defined exactly for a known login: the braced listing of some duplicate-free enumeration of exactly its fans |
| RegrasUsuarios.EhPaquera | src/br/ufal/ic/p2/jackut/services/GerenciadorUsuarios.java:219-222 | defined exactly when the user exists, and true exactly when the other login is in its crush set |
| RegrasUsuarios.GetPaqueras | src/br/ufal/ic/p2/jackut/services/GerenciadorUsuarios.java:224-227 | defined exactly for a known login: the braced listing of some duplicate-free enumeration of exactly its crushes |
| RegrasUsuarios.InvVazio | src/br/ufal/ic/p2/jackut/services/GerenciadorUsuarios.java:134-136 | the empty store satisfies the store invariant |
| RegrasUsuarios.CriarUsuarioPreservaInv | src/br/ufal/ic/p2/jackut/services/GerenciadorUsuarios.java:34-39 | creating an account keeps the store invariant |
| RegrasUsuarios.AdicionarAmigoPreservaInv | src/br/ufal/ic/p2/jackut/services/GerenciadorUsuarios.java:70-103 | the friendship handshake keeps the invariant, including symmetric friendship and paired invitations |
| RegrasUsuarios.AdicionarIdoloPreservaInv | src/br/ufal/ic/p2/jackut/services/GerenciadorUsuarios.java:140-156 | adicionarIdolo keeps the invariant, including that fan and idol sets mirror each other |
| RegrasUsuarios.AdicionarInimigoPreservaInv | src/br/ufal/ic/p2/jackut/services/GerenciadorUsuarios.java:195-207 | adicionarInimigo keeps the invariant, including symmetric enmity |
| RegrasUsuarios.AdicionarPaqueraPreservaInv | src/br/ufal/ic/p2/jackut/services/GerenciadorUsuarios.java:158-176 | adicionarPaquera, with its system messages, keeps the invariant |
| RegrasUsuarios.RecadoSistemaPreservaInv | src/br/ufal/ic/p2/jackut/services/GerenciadorUsuarios.java:178-193 | delivering the two crush notifications keeps the invariant |
| RegrasUsuarios.EnviarRecadoPreservaInv | src/br/ufal/ic/p2/jackut/services/GerenciadorUsuarios.java:229-240 | the store's enviarRecado keeps the invariant |
| RegrasUsuarios.ComRecadoPreserva | src/br/ufal/ic/p2/jackut/models/Usuario.java:128-130 | appending a message to any account's queue keeps the invariant and the logins |
| RegrasUsuarios.SoMensagensOuPerfil | src/br/ufal/ic/p2/jackut/models/Usuario.java:20-25 | a change that touches only queues, or only adds profile attributes, keeps the invariant |
| PropriedadesUsuarios.CriarUsuarioEfeito | src/br/ufal/ic/p2/jackut/services/GerenciadorUsuarios.java:34-39 | a login in use fails with UsuarioJaExiste and no change; otherwise exactly one new account, NovaConta, is added |
| PropriedadesUsuarios.AdicionarAmigoOrdemDosErros | src/br/ufal/ic/p2/jackut/services/GerenciadorUsuarios.java:70-90 | the errors come in source order: unknown login, enemy, self, already a friend, invitation pending; success exactly when none applies |
| PropriedadesUsuarios.AdicionarAmigoErrosSobInv | src/br/ufal/ic/p2/jackut/services/GerenciadorUsuarios.java:75-82 | under the invariant, the enemy error carries the target's "nome", and self-friendship fails with AutoAmizade |
| PropriedadesUsuarios.AdicionarAmigoEfeito | src/br/ufal/ic/p2/jackut/services/GerenciadorUsuarios.java:92-102 | success with a received invitation makes both friends and clears both invitations; otherwise it records SENT/RECEIVED; no other account changes |
| PropriedadesUsuarios.Handshake | src/br/ufal/ic/p2/jackut/services/GerenciadorUsuarios.java:70-103 | a invites b (pending on both sides, not friends); b's request then connects both, clears the invitations, and makes saoAmigos true both ways |
| PropriedadesUsuarios.SaoAmigosSimetrico | src/br/ufal/ic/p2/jackut/services/GerenciadorUsuarios.java:113-117 | saoAmigos is symmetric and, under the invariant, decided by one side's friend set |
| PropriedadesUsuarios.InimigoBloqueia | src/br/ufal/ic/p2/jackut/services/GerenciadorUsuarios.java:70-240 | an enemy, in either direction, makes friendship, idol, crush and the store's enviarRecado fail with the enemy error and no change |
| PropriedadesUsuarios.AdicionarInimigoEfeito | src/br/ufal/ic/p2/jackut/services/GerenciadorUsuarios.java:195-207 | self fails first, then an unknown login, then an existing enemy; success adds the enemy on both sides |
| PropriedadesUsuarios.DeclararInimigo | src/br/ufal/ic/p2/jackut/services/GerenciadorUsuarios.java:195-207 | after declaring, both enemy sets show it, and friendship, idol and crush between the pair fail in both directions |
| PropriedadesUsuarios.AdicionarIdoloEfeito | src/br/ufal/ic/p2/jackut/services/GerenciadorUsuarios.java:140-156 | self, then unknown login, then enemy; success adds the idol to the fan and the fan to the idol and nothing else |
| PropriedadesUsuarios.AdicionarIdoloRepetido | src/br/ufal/ic/p2/jackut/services/GerenciadorUsuarios.java:140-156 | a repeated adicionarIdolo succeeds and leaves the store unchanged |
| PropriedadesUsuarios.AdicionarPaqueraErros | src/br/ufal/ic/p2/jackut/services/GerenciadorUsuarios.java:158-168 | self fails first even for unknown logins, then an unknown login, then a target the caller declared an enemy; each with no change |
| PropriedadesUsuarios.AdicionarPaqueraRepetida | src/br/ufal/ic/p2/jackut/services/GerenciadorUsuarios.java:158-176 | a crush already recorded is accepted again: one-sided it changes nothing; reciprocal it appends one more "Sistema" message to each side |
| PropriedadesUsuarios.PaqueraUnilateral | src/br/ufal/ic/p2/jackut/services/GerenciadorUsuarios.java:158-176 | a crush that is not reciprocal only adds to the caller's crush set, and ehPaquera then says true |
| PropriedadesUsuarios.PaqueraReciproca | src/br/ufal/ic/p2/jackut/services/GerenciadorUsuarios.java:169-192 | a reciprocal crush succeeds and appends one "Sistema" message naming the other party to each side's queue |
| PropriedadesUsuarios.PaqueraFalhaSemEfeito | src/br/ufal/ic/p2/jackut/services/GerenciadorUsuarios.java:158-193 | under the invariant, every failure of adicionarPaquera leaves the store unchanged |
| PropriedadesUsuarios.PaqueraReverificacaoTardia | src/br/ufal/ic/p2/jackut/services/GerenciadorUsuarios.java:169-184 | with enmity recorded on one side only, the late re-check throws after the crush was already recorded |
| PropriedadesUsuarios.EnviarRecadoGerenciador | src/br/ufal/ic/p2/jackut/services/GerenciadorUsuarios.java:229-240 | the store's enviarRecado appends (sender login, text) to the recipient's queue only, and does not refuse sending to oneself |
| GerenciamentoUsuarios.DuasAtualizacoes | src/br/ufal/ic/p2/jackut/services/GerenciadorUsuarios.java:94-101 | proof helper, a map identity: updating the same two distinct keys twice leaves only the second pair of values, which composes the two in-place updates of each record |
| GerenciamentoUsuarios.GerenciadorUsuarios.constructor | src/br/ufal/ic/p2/jackut/services/GerenciadorUsuarios.java:23 | the store starts empty |
| GerenciamentoUsuarios.GerenciadorUsuarios.GetUsuario | src/br/ufal/ic/p2/jackut/services/GerenciadorUsuarios.java:48-52 | the stored record for a known login; otherwise UsuarioNaoEncontrado |
| GerenciamentoUsuarios.GerenciadorUsuarios.CriarUsuario | src/br/ufal/ic/p2/jackut/services/GerenciadorUsuarios.java:34-39 | result and new store as RegrasUsuarios.CriarUsuario says; existing records stay the same objects |
| GerenciamentoUsuarios.GerenciadorUsuarios.ErroInimigo | src/br/ufal/ic/p2/jackut/services/GerenciadorUsuarios.java:75-78 | the same error as the value-level ErroInimigo for the target's record |
| GerenciamentoUsuarios.GerenciadorUsuarios.AdicionarAmigo | src/br/ufal/ic/p2/jackut/services/GerenciadorUsuarios.java:70-103 | result and new store as RegrasUsuarios.AdicionarAmigo says |
| GerenciamentoUsuarios.GerenciadorUsuarios.AceitarConvite | src/br/ufal/ic/p2/jackut/services/GerenciadorUsuarios.java:94-97 | one side's record gains the friend and loses the invitation; no other record changes |
| GerenciamentoUsuarios.GerenciadorUsuarios.AmizadeMutua | src/br/ufal/ic/p2/jackut/services/GerenciadorUsuarios.java:94-95 | the two records enter each other's friend sets; no other record changes |
| GerenciamentoUsuarios.GerenciadorUsuarios.ConvitesRemovidos | src/br/ufal/ic/p2/jackut/services/GerenciadorUsuarios.java:96-97 | the invitation is removed from both records; no other record changes |
| GerenciamentoUsuarios.GerenciadorUsuarios.Convidar | src/br/ufal/ic/p2/jackut/services/GerenciadorUsuarios.java:98-101 | SENT is recorded on the inviter and RECEIVED on the invitee; no other record changes |
| GerenciamentoUsuarios.GerenciadorUsuarios.SaoAmigos | src/br/ufal/ic/p2/jackut/services/GerenciadorUsuarios.java:113-117 | equal to RegrasUsuarios.SaoAmigos on the store's value |
| GerenciamentoUsuarios.GerenciadorUsuarios.ListarAmigos | src/br/ufal/ic/p2/jackut/services/GerenciadorUsuarios.java:126-129 | equal to RegrasUsuarios.ListarAmigos on the store's value |
| GerenciamentoUsuarios.GerenciadorUsuarios.Zerar | src/br/ufal/ic/p2/jackut/services/GerenciadorUsuarios.java:134-136 | the store becomes empty |
| GerenciamentoUsuarios.GerenciadorUsuarios.AdicionarIdolo | src/br/ufal/ic/p2/jackut/services/GerenciadorUsuarios.java:140-156 | result and new store as RegrasUsuarios.AdicionarIdolo says |
| GerenciamentoUsuarios.GerenciadorUsuarios.AdicionarPaquera | src/br/ufal/ic/p2/jackut/services/GerenciadorUsuarios.java:158-176 | result and new store as RegrasUsuarios.AdicionarPaquera says, including a failure after the crush was recorded |
| GerenciamentoUsuarios.GerenciadorUsuarios.EnviarRecadoSistema | src/br/ufal/ic/p2/jackut/services/GerenciadorUsuarios.java:178-193 | result and new store as RegrasUsuarios.EnviarRecadoSistema says |
| GerenciamentoUsuarios.GerenciadorUsuarios.AdicionarInimigo | src/br/ufal/ic/p2/jackut/services/GerenciadorUsuarios.java:195-207 | result and new store as RegrasUsuarios.AdicionarInimigo says |
| GerenciamentoUsuarios.GerenciadorUsuarios.EhFa | src/br/ufal/ic/p2/jackut/services/GerenciadorUsuarios.java:209-212 | equal to RegrasUsuarios.EhFa on the store's value |
| GerenciamentoUsuarios.GerenciadorUsuarios.GetFas | src/br/ufal/ic/p2/jackut/services/GerenciadorUsuarios.java:214-217 | equal to RegrasUsuarios.GetFas on the store's value |
| GerenciamentoUsuarios.GerenciadorUsuarios.EhPaquera | src/br/ufal/ic/p2/jackut/services/GerenciadorUsuarios.java:219-222 | equal to RegrasUsuarios.EhPaquera on the store's value |
| GerenciamentoUsuarios.GerenciadorUsuarios.GetPaqueras | src/br/ufal/ic/p2/jackut/services/GerenciadorUsuarios.java:224-227 | equal to RegrasUsuarios.GetPaqueras on the store's value |
| GerenciamentoUsuarios.GerenciadorUsuarios.EnviarRecado | src/br/ufal/ic/p2/jackut/services/GerenciadorUsuarios.java:229-240 | result and new store as RegrasUsuarios.EnviarRecado says |
| Sessoes.SemUsuario | src/br/ufal/ic/p2/jackut/services/GerenciadorSessoes.java:61-63 | keeps exactly the sessions whose login is not the given one, with their logins |
| Sessoes.CriarRecusaLoginEmBranco | src/br/ufal/ic/p2/jackut/services/GerenciadorSessoes.java:30-33 | a blank login is refused and no session is created |
| Sessoes.CriarEntaoConsultar | src/br/ufal/ic/p2/jackut/services/GerenciadorSessoes.java:30-47 | the new token returns its login; other tokens are unchanged; a fresh token adds a session |
| Sessoes.ConsultarDesconhecido | src/br/ufal/ic/p2/jackut/services/GerenciadorSessoes.java:45-47 | an unknown token resolves to nothing (null in the source) |
| Sessoes.SemUsuarioRemoveSoAsDele | src/br/ufal/ic/p2/jackut/services/GerenciadorSessoes.java:61-63 | afterwards no token resolves to the login; others resolve as before; a second removal changes nothing |
| Sessoes.GerenciadorSessoes.constructor | src/br/ufal/ic/p2/jackut/services/GerenciadorSessoes.java:21 | the table starts empty |
| Sessoes.GerenciadorSessoes.CriarSessao | src/br/ufal/ic/p2/jackut/services/GerenciadorSessoes.java:30-37 | result and new table as Criar says, so the lemmas above apply |
| Sessoes.GerenciadorSessoes.GetLogin | src/br/ufal/ic/p2/jackut/services/GerenciadorSessoes.java:45-47 | some login exactly for a stored token, and it is that token's login |
| Sessoes.GerenciadorSessoes.Zerar | src/br/ufal/ic/p2/jackut/services/GerenciadorSessoes.java:52-54 | the table becomes empty |
| Sessoes.GerenciadorSessoes.RemoverSessoesDoUsuario | src/br/ufal/ic/p2/jackut/services/GerenciadorSessoes.java:61-63 | the new table is SemUsuario of the old one |
| Comunidades.NovaComunidade | src/br/ufal/ic/p2/jackut/models/Community.java:32-37 | the new community has its name, description and owner, and the owner as its only member |
| Comunidades.ComMembroEfeito | src/br/ufal/ic/p2/jackut/models/Community.java:61-65 | a new member goes last and the community stays valid; a member already present gives UsuarioJaMembro and no change |
| Comunidades.ComDescricaoEfeito | src/br/ufal/ic/p2/jackut/models/Community.java:51-53 | setDescription changes the description and nothing else |
| Comunidades.Community.constructor | src/br/ufal/ic/p2/jackut/models/Community.java:32-37 | the object's value is NovaComunidade of its arguments |
| Comunidades.Community.GetName | src/br/ufal/ic/p2/jackut/models/Community.java:44 | the community's name |
| Comunidades.Community.SetDescription | src/br/ufal/ic/p2/jackut/models/Community.java:51-53 | the new value is the old one with the new description; the community stays valid |
| Comunidades.Community.AddMember | src/br/ufal/ic/p2/jackut/models/Community.java:61-65 | result and new value as ComMembro says; the community stays valid (owner first, no repeats) |
| Comunidades.Community.GetDescription | src/br/ufal/ic/p2/jackut/models/Community.java:72-74 | the current description |
| Comunidades.Community.GetOwner | src/br/ufal/ic/p2/jackut/models/Community.java:81-83 | the owner |
| Comunidades.Community.GetMembers | src/br/ufal/ic/p2/jackut/models/Community.java:86-92 | the community's member sequence itself, in join order as ComMembroEfeito fixes: the owner first, each member once |
| Comunidades.Community.GetMembros | src/br/ufal/ic/p2/jackut/models/Community.java:100-102 | the same list as getMembers |
| GerenciamentoComunidades.Buscar | src/br/ufal/ic/p2/jackut/services/GerenciadorComunidades.java:25-29 | succeeds exactly for a known name, with its community; otherwise ComunidadeNaoEncontrada |
| GerenciamentoComunidades.InvPreservado | src/br/ufal/ic/p2/jackut/services/GerenciadorComunidades.java:12-22 | the empty registry, creation and joining all keep every community under its own name and valid |
| GerenciamentoComunidades.CriarEntaoConsultar | src/br/ufal/ic/p2/jackut/services/GerenciadorComunidades.java:17-42 | a new community reports its owner, its description and "{owner}"; other communities are unchanged |
| GerenciamentoComunidades.CriarRepetido | src/br/ufal/ic/p2/jackut/services/GerenciadorComunidades.java:17-22 | a name in use gives ComunidadeJaExiste and no change |
| GerenciamentoComunidades.NomeDesconhecido | src/br/ufal/ic/p2/jackut/services/GerenciadorComunidades.java:12-42 | every lookup by an unknown name fails with ComunidadeNaoEncontrada, and adicionarMembro changes nothing |
| GerenciamentoComunidades.AdicionarMembroEfeito | src/br/ufal/ic/p2/jackut/services/GerenciadorComunidades.java:12-15 | joining changes only that community's members: a new member is appended to the listing, a repeated one is refused with no change |
| GerenciamentoComunidades.GerenciadorComunidades.constructor | src/br/ufal/ic/p2/jackut/services/GerenciadorComunidades.java:10 | the registry starts empty |
| GerenciamentoComunidades.GerenciadorComunidades.AdicionarMembro | src/br/ufal/ic/p2/jackut/services/GerenciadorComunidades.java:12-15 | result and new registry as AdicionarMembroEm says |
| GerenciamentoComunidades.GerenciadorComunidades.CriarComunidade | src/br/ufal/ic/p2/jackut/services/GerenciadorComunidades.java:17-22 | result and new registry as Criar says |
| GerenciamentoComunidades.GerenciadorComunidades.GetComunidade | src/br/ufal/ic/p2/jackut/services/GerenciadorComunidades.java:25-29 | the stored object for a known name; otherwise ComunidadeNaoEncontrada |
| GerenciamentoComunidades.GerenciadorComunidades.GetDescricao | src/br/ufal/ic/p2/jackut/services/GerenciadorComunidades.java:31-33 | equal to Descricao on the registry's value |
| GerenciamentoComunidades.GerenciadorComunidades.GetDono | src/br/ufal/ic/p2/jackut/services/GerenciadorComunidades.java:35-37 | equal to Dono on the registry's value |
| GerenciamentoComunidades.GerenciadorComunidades.ListarMembros | src/br/ufal/ic/p2/jackut/services/GerenciadorComunidades.java:39-42 | equal to ListarMembrosDe on the registry's value |
| GerenciamentoComunidades.GerenciadorComunidades.Zerar | src/br/ufal/ic/p2/jackut/services/GerenciadorComunidades.java:44-46 | the registry becomes empty |
| RegrasJackute.ValidarCredenciais | src/br/ufal/ic/p2/jackut/Jackute.java:167-172 | passes exactly when login and password are both non-blank; a blank login gives LoginInvalido, checked before the password |
| RegrasJackute.GetAtributoUsuario | src/br/ufal/ic/p2/jackut/Jackute.java:63-65 | an unknown login gives UsuarioNaoEncontrado; otherwise the profile's getAtributo |
| RegrasJackute.LoginDaSessao | src/br/ufal/ic/p2/jackut/Jackute.java:159-165 | succeeds exactly when the token has a session whose login has an account; the result is that login; otherwise UsuarioNaoEncontrado |
| RegrasJackute.Zerar | src/br/ufal/ic/p2/jackut/Jackute.java:153-156 | no accounts and no sessions |
| RegrasJackute.ZerarPreservaInv | src/br/ufal/ic/p2/jackut/Jackute.java:153-156 | the reset state satisfies the invariant |
| RegrasJackute.CriarUsuarioPreservaInv | src/br/ufal/ic/p2/jackut/Jackute.java:29-32 | criarUsuario keeps the invariant |
| RegrasJackute.AbrirSessaoPreservaInv | src/br/ufal/ic/p2/jackut/Jackute.java:42-52 | abrirSessao keeps the invariant: every session names an account |
| RegrasJackute.EditarPerfilPreservaInv | src/br/ufal/ic/p2/jackut/Jackute.java:75-78 | editarPerfil keeps the invariant |
| RegrasJackute.AdicionarAmigoPreservaInv | src/br/ufal/ic/p2/jackut/Jackute.java:89-92 | adicionarAmigo keeps the invariant |
| RegrasJackute.EnviarRecadoPreservaInv | src/br/ufal/ic/p2/jackut/Jackute.java:126-135 | enviarRecado keeps the invariant |
| RegrasJackute.LerRecadoPreservaInv | src/br/ufal/ic/p2/jackut/Jackute.java:145-148 | lerRecado keeps the invariant |
| RegrasJackute.MesmasChaves | src/br/ufal/ic/p2/jackut/Jackute.java:16-17 | a store with the same logins that satisfies the store invariant keeps the whole invariant |
| RegrasJackute.PerfilEditado | src/br/ufal/ic/p2/jackut/models/Perfil.java:42-44 | setting one profile attribute keeps the store invariant and the logins |
| RegrasJackute.AdicionarAmigoChaves | src/br/ufal/ic/p2/jackut/services/GerenciadorUsuarios.java:70-103 | the handshake neither adds nor removes accounts |
| RegrasJackute.RecadoLido | src/br/ufal/ic/p2/jackut/models/Usuario.java:138-142 | reading a message keeps the store invariant and the logins |
| PropriedadesJackute.CriarUsuarioOrdem | src/br/ufal/ic/p2/jackut/Jackute.java:29-32 | blank login, then blank password, then duplicate login; success adds exactly NovaConta and leaves the sessions alone |
| PropriedadesJackute.CriarEntaoAtributo | src/br/ufal/ic/p2/jackut/Jackute.java:29-65 | a new account reads "nome" back as given, and every other attribute as AtributoNaoPreenchido |
| PropriedadesJackute.AbrirSessaoRecusa | src/br/ufal/ic/p2/jackut/Jackute.java:42-52 | an unknown login and a wrong password both give LoginOuSenhaInvalidos and open no session |
| PropriedadesJackute.AbrirSessaoEntaoSessao | src/br/ufal/ic/p2/jackut/Jackute.java:42-52 | under the invariant, the right password opens a session whose token resolves to the login; accounts and other tokens are unchanged |
| PropriedadesJackute.SessaoDesconhecida | src/br/ufal/ic/p2/jackut/Jackute.java:159-165 | a token with no session makes editarPerfil, adicionarAmigo, enviarRecado and lerRecado fail with UsuarioNaoEncontrado and no change |
| PropriedadesJackute.EditarPerfilEfeito | src/br/ufal/ic/p2/jackut/Jackute.java:75-78 | the edited attribute reads back as the value; other attributes, other accounts, the user's other fields and the sessions are unchanged |
| PropriedadesJackute.AdicionarAmigoSessao | src/br/ufal/ic/p2/jackut/Jackute.java:89-92 | adicionarAmigo is the store's handshake for the session's login |
| PropriedadesJackute.EnviarRecadoOrdem | src/br/ufal/ic/p2/jackut/Jackute.java:126-135 | session, then unknown recipient, then self-send; success appends (sender, text) to the recipient's queue only |
| PropriedadesJackute.EnviarRecadoIgnoraInimizade | src/br/ufal/ic/p2/jackut/Jackute.java:126-135 | a sender whom the recipient declared an enemy still gets the message through this path, while the store's enviarRecado refuses it |
| PropriedadesJackute.EnviarEntaoLer | src/br/ufal/ic/p2/jackut/Jackute.java:126-148 | a message sent to an empty queue is the next one read, and reading it restores the state |
| PropriedadesJackute.LerRecadoEfeito | src/br/ufal/ic/p2/jackut/Jackute.java:145-148 | an empty queue gives SemRecados and no change; otherwise the head's text is returned and only the reader's queue loses its head |
| PropriedadesJackute.ZerarEsvazia | src/br/ufal/ic/p2/jackut/Jackute.java:153-156 | after zerar no session works, no login opens a session, and no account is found |
| Jackut.Jackute.constructor | src/br/ufal/ic/p2/jackut/Jackute.java:16-17 | the system starts as RegrasJackute.Zerar and satisfies the invariant |
| Jackut.Jackute.CriarUsuario | src/br/ufal/ic/p2/jackut/Jackute.java:29-32 | result and new state as RegrasJackute.CriarUsuario; the invariant is kept |
| Jackut.Jackute.AbrirSessao | src/br/ufal/ic/p2/jackut/Jackute.java:42-52 | result and new state as RegrasJackute.AbrirSessao; the invariant is kept |
| Jackut.Jackute.GetAtributoUsuario | src/br/ufal/ic/p2/jackut/Jackute.java:63-65 | equal to RegrasJackute.GetAtributoUsuario on the system's value |
| Jackut.Jackute.GetUsuarioPorSessao | src/br/ufal/ic/p2/jackut/Jackute.java:159-165 | the record of the session's login exactly when the token has a session with an account; otherwise UsuarioNaoEncontrado |
| Jackut.Jackute.EditarPerfil | src/br/ufal/ic/p2/jackut/Jackute.java:75-78 | result and new state as RegrasJackute.EditarPerfil; the invariant is kept |
| Jackut.Jackute.AdicionarAmigo | src/br/ufal/ic/p2/jackut/Jackute.java:89-92 | result and new state as RegrasJackute.AdicionarAmigo; the invariant is kept |
| Jackut.Jackute.EhAmigo | src/br/ufal/ic/p2/jackut/Jackute.java:102-104 | equal to the store's saoAmigos on its value |
| Jackut.Jackute.GetAmigos | src/br/ufal/ic/p2/jackut/Jackute.java:113-115 | equal to the store's listarAmigos on its value |
| Jackut.Jackute.EnviarRecado | src/br/ufal/ic/p2/jackut/Jackute.java:126-135 | result and new state as RegrasJackute.EnviarRecado; the invariant is kept |
| Jackut.Jackute.Entregar | src/br/ufal/ic/p2/jackut/Jackute.java:134 | the recipient's record alone gains the message at the tail of its queue |
| Jackut.Jackute.LerRecado | src/br/ufal/ic/p2/jackut/Jackute.java:145-148 | result and new state as RegrasJackute.LerRecado; the invariant is kept |
| Jackut.Jackute.Zerar | src/br/ufal/ic/p2/jackut/Jackute.java:153-156 | the system becomes RegrasJackute.Zerar and satisfies the invariant |

## Left out

- `Facade` and `Main`: parameter passing and program start-up, outside the core.
  The facade also names operations that `Jackute` does not have: communities
  reached through `Jackute`, community messages, and account removal. Those
  operations are not part of this model. The community registry is modelled
  on its own.
- `salvarEstado` and `carregarEstado`: file I/O and Java serialisation.
- `criarSessao`'s `UUID.randomUUID()`: randomness. The token is the parameter
  `id` of `Sessoes.Criar`, `GerenciadorSessoes.CriarSessao`, `RegrasJackute.AbrirSessao`
  and `Jackute.AbrirSessao`. It is stored with a `put`, so a repeated token
  overwrites the earlier session, as the code would.
- `null` strings: Dafny strings are never null. The `login == null` and
  `senha == null` branches are not modelled. A `null` from `getLogin` is
  `Sessoes.None`.
- Colecoes.IsBlank: limited to the ASCII characters that
  `Character.isWhitespace` accepts. The Unicode space separators are not
  modelled.
- RegrasUsuarios.GetFas and RegrasUsuarios.GetPaqueras: the order of a Java hash
  set is unspecified, so the listing is stated for some duplicate-free
  enumeration fixed by the model. It is not the JVM's actual order.
- The relation members of `Usuario` that the store calls: `getInimigos`,
  `getIdolos`, `getFas`, `getPaqueras` and the matching `adicionar…` methods.
  The given `Usuario.java` does not define them. They are modelled as plain
  sets that only grow, with no duplicate check, as the store uses them.
- The exception classes and their messages: each is one constructor of
  `Erros.Erro` with the message text as a field where the code gives one.
  `PersistenciaException` is used only by `Facade`'s file handling.
  `ConviteNaoEncontradoException`, `SemMensagensException` and
  `PaqueraExistenteException` are referenced nowhere outside their own class
  files. None of the four has a constructor. `IllegalArgumentException` from `criarSessao` is
  `LoginInvalidoParaSessao`.
- Jackut.Jackute: the invariant `RegrasJackute.Inv` is not part of `Valid()`.
  Each method states it as a postcondition, `Inv(old(Abs())) ==> Inv(Abs())`,
  proved from the rule lemmas in `RegrasJackute`.
- Perfis.Perfil.GetAtributo, Recados.Recado.GetRemetente and Recados.Recado.ToString:
  these plain accessors have no contract of their own. What they return is
  stated by Perfis.Atributo, Recados.Construcao and Recados.ToStringIgnoraRemetente.
- Concurrency: the Java objects are not shared between threads in the core,
  and the model assumes sequential calls.
