/** Request sequences against the backend and the client session, with what
    their contracts let a caller conclude. */
module Scenarios {
  import opened Wrappers
  import opened Sequences
  import opened Server
  import Api

  /** Deleting the same id twice: the second call answers 404 and changes
      nothing. */
  method DeleteTwice(db: Database, id: int) returns (first: Response, second: Response)
    modifies db
    ensures second.status == 404
    ensures db.tarefas == Filter(old(db.tarefas), NotId(id))
  {
    first := db.DeleteTask(id);
    DeleteTwiceRemovesNothing(old(db.tarefas), id);
    second := db.DeleteTask(id);
  }

  /** Registering the same email twice: the second call answers 409 and
      only one user holds the email. */
  method RegisterTwice(db: Database, nome: string, email: string, senha: string, id1: int, id2: int)
    returns (first: Response, second: Response)
    modifies db
    requires EmailsUnique(db.usuarios)
    ensures second.status == 409
    ensures EmailsUnique(db.usuarios)
    ensures FindIndex(db.usuarios, EmailIs(email)) != -1
  {
    first := db.Register(nome, email, senha, id1);
    var u := User(id1, nome, email, senha);
    if first.status == 201 {
      assert db.usuarios[|db.usuarios| - 1] == u;
      assert EmailIs(email)(db.usuarios[|db.usuarios| - 1]);
    }
    second := db.Register(nome, email, senha, id2);
  }

  /** Registering and then logging in with the same credentials returns the
      registered user, with the id it was given. */
  method RegisterThenLogin(db: Database, nome: string, email: string, senha: string, novoId: int)
    returns (reg: Response, login: Response)
    modifies db
    requires FindIndex(db.usuarios, EmailIs(email)) == -1
    ensures reg.status == 201
    ensures login == Response(200, UserBody("Login bem-sucedido!", User(novoId, nome, email, senha)))
  {
    reg := db.Register(nome, email, senha, novoId);
    RegisteredUserLogsIn(old(db.usuarios), User(novoId, nome, email, senha));
    login := db.Login(email, senha);
  }

  /** Creating a task and listing its owner's tasks shows it last, with
      `finalizada` false. */
  method CreateThenList(db: Database, usuarioId: int, titulo: string, descricao: string,
                        dataVencimento: string, novoId: int)
    returns (listed: seq<Task>)
    modifies db
    ensures |listed| > 0 && listed[|listed| - 1] == Task(novoId, usuarioId, titulo, descricao, dataVencimento, false)
    ensures listed == Filter(old(db.tarefas), OwnedBy(usuarioId)) + [listed[|listed| - 1]]
  {
    var created := db.CreateTask(usuarioId, titulo, descricao, dataVencimento, novoId);
    CreatedTaskIsListed(old(db.tarefas), created.body.tarefa);
    listed := db.ListTasks(usuarioId).body.tarefas;
  }

  /** The whole login exchange: the server's answer, then the client's
      reaction to it (the `tap` on 200, `tratarErros` on 401). The session
      ends up authenticated exactly when the credentials match a user, and
      never holds a password. */
  method LoginRoundTrip(db: Database, api: Api.ApiService, email: string, senha: string)
    returns (mensagemErro: Option<string>)
    modifies api
    requires api.Consistent()
    ensures api.Consistent()
    ensures api.autenticado <==> FindIndex(db.usuarios, HasCredentials(email, senha)) != -1
    ensures api.autenticado ==>
              var u := db.usuarios[FindIndex(db.usuarios, HasCredentials(email, senha))];
              api.usuarioLogado == Some(Api.Usuario(u.id, u.nome, u.email))
    ensures mensagemErro.Some? <==> !api.autenticado
    ensures mensagemErro.Some? ==> mensagemErro.value == "Credenciais inválidas"
  {
    var r := db.Login(email, senha);
    if r.status == 200 {
      api.OnLoginResponse(Api.AutenticacaoResponse(r.body.message, Some(r.body.usuario)));
      mensagemErro := None;
    } else {
      var m := api.TratarErros(Api.HttpError(r.status, Api.ServerPayload(Some(r.body.message))));
      mensagemErro := Some(m);
    }
  }
}
